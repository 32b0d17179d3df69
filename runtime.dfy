/**
 The runtime service: the Sandbox Registry and the Container Registry, the
 lifecycle operations that change them, and the queries that read them.

 The external helper programs are not run here. What each one answers is a
 parameter of the operation that calls it (a success flag, or the output of
 `showip`), and the ghost log `calls` records every invocation the service
 makes, with its arguments, in order. Clock readings are parameters too.
 */
module Runtime {
  import opened Cri
  import opened Ids
  import opened Labels

  /** One invocation of a helper program from the bin directory, with its arguments. */
  datatype Invocation =
    | PodCreate(node: string, sandboxId: string, hostname: string)
    | ShowIp(hostname: string)
    | PodRemove(node: string, sandboxId: string, hostname: string)
    | CtStart(node: string, sandboxId: string, hostname: string, containerId: string, imageRef: string)
    | CtStop(node: string, sandboxId: string, containerId: string)
    | CtCheck(node: string, sandboxId: string, containerId: string)

  /** A Sandbox Registry entry is stored under its own ID, which its metadata determine. */
  predicate SandboxEntryOk(id: string, sb: FakePodSandbox)
  {
    sb.status.id == id && id == BuildSandboxName(sb.status.metadata)
  }

  /**
   A Container Registry entry is stored under its own ID, which its metadata and
   sandbox determine; it is never UNKNOWN and its image reference is its image.
   */
  predicate ContainerEntryOk(id: string, c: FakeContainer)
  {
    && c.status.id == id
    && id == BuildContainerName(c.status.metadata, c.sandboxId)
    && c.status.state != ContainerUnknown
    && c.status.imageRef == c.status.image
  }

  function MarkNotReady(sb: FakePodSandbox): (stopped: FakePodSandbox)
  {
    sb.(status := sb.status.(state := SandboxNotReady))
  }

  function MarkRunning(c: FakeContainer, startedAt: int): (started: FakeContainer)
  {
    c.(status := c.status.(state := ContainerRunning, startedAt := startedAt))
  }

  function MarkExited(c: FakeContainer, finishedAt: int): (exited: FakeContainer)
  {
    c.(status := c.status.(state := ContainerExited, finishedAt := finishedAt))
  }

  /** The outcome of the liveness probe on one entry: only a RUNNING entry whose check fails changes. */
  function Probed(c: FakeContainer, checkOk: bool): (probed: FakeContainer)
  {
    if c.status.state == ContainerRunning && !checkOk
    then c.(status := c.status.(state := ContainerExited))
    else c
  }

  /** Every entry after one probe each; `alive` holds the IDs whose `ct check` succeeds. */
  function Refreshed(containers: map<string, FakeContainer>, alive: set<string>): (refreshed: map<string, FakeContainer>)
  {
    map id | id in containers :: Probed(containers[id], id in alive)
  }

  /** The `ct check` invocations made while probing the entries whose IDs are in `ids`. */
  function ProbeCalls(node: string, containers: map<string, FakeContainer>, ids: set<string>): (probes: set<Invocation>)
  {
    set id | id in ids && id in containers && containers[id].status.state == ContainerRunning
      :: CtCheck(node, containers[id].sandboxId, id)
  }

  /** The three optional ListPodSandbox conditions, ANDed; no filter at all selects everything. */
  predicate SandboxSelected(filter: Option<PodSandboxFilter>, id: string, sb: FakePodSandbox)
  {
    match filter
    case None => true
    case Some(f) =>
      && (f.id == "" || f.id == id)
      && (f.state.None? || f.state.value == sb.status.state)
      && Matches(f.labelSelector, sb.status.labels)
  }

  function SelectedSandboxIds(sandboxes: map<string, FakePodSandbox>, filter: Option<PodSandboxFilter>): (ids: set<string>)
  {
    set id | id in sandboxes && SandboxSelected(filter, id, sandboxes[id])
  }

  function SandboxItem(sb: FakePodSandbox): (item: PodSandbox)
  {
    PodSandbox(sb.status.id, sb.status.metadata, sb.status.state, sb.status.createdAt,
               sb.status.labels, sb.status.annotations)
  }

  /** The four optional ListContainers conditions, ANDed; no filter at all selects everything. */
  predicate ContainerSelected(filter: Option<ContainerFilter>, c: FakeContainer)
  {
    match filter
    case None => true
    case Some(f) =>
      && (f.id == "" || f.id == c.status.id)
      && (f.podSandboxId == "" || f.podSandboxId == c.sandboxId)
      && (f.state.None? || f.state.value == c.status.state)
      && Matches(f.labelSelector, c.status.labels)
  }

  function SelectedContainerIds(containers: map<string, FakeContainer>, filter: Option<ContainerFilter>): (ids: set<string>)
  {
    set id | id in containers && ContainerSelected(filter, containers[id])
  }

  function ContainerItem(c: FakeContainer): (item: Container)
  {
    Container(c.status.id, c.sandboxId, c.status.metadata, c.status.image, c.status.imageRef,
              c.status.state, c.status.createdAt, c.status.labels, c.status.annotations)
  }

  const Shebang := "#!/usr/bin/env bash"

  /** `export %q=%q`, with Go's `%q` quoting passed in as `quote`. */
  function ExportLine(quote: string -> string, e: KeyValue): (line: string)
  {
    "export " + quote(e.key) + "=" + quote(e.value)
  }

  /** `mount -o bind %q %q`: host path first, then container path. */
  function MountLine(quote: string -> string, m: Mount): (line: string)
  {
    "mount -o bind " + quote(m.hostPath) + " " + quote(m.containerPath)
  }

  /**
   The lines of the init script WriteInit produces: the shebang, a blank line,
   one export per environment entry and then one bind mount per mount, both
   in request order.
   */
  method WriteInit(quote: string -> string, envs: seq<KeyValue>, mounts: seq<Mount>) returns (lines: seq<string>)
    ensures |lines| == 2 + |envs| + |mounts|
    ensures lines[0] == Shebang && lines[1] == ""
    ensures forall i :: 0 <= i < |envs| ==> lines[2 + i] == ExportLine(quote, envs[i])
    ensures forall j :: 0 <= j < |mounts| ==> lines[2 + |envs| + j] == MountLine(quote, mounts[j])
  {
    lines := [Shebang, ""];
    for i := 0 to |envs|
      invariant |lines| == 2 + i
      invariant lines[0] == Shebang && lines[1] == ""
      invariant forall k :: 0 <= k < i ==> lines[2 + k] == ExportLine(quote, envs[k])
    {
      lines := lines + [ExportLine(quote, envs[i])];
    }
    for j := 0 to |mounts|
      invariant |lines| == 2 + |envs| + j
      invariant lines[0] == Shebang && lines[1] == ""
      invariant forall k :: 0 <= k < |envs| ==> lines[2 + k] == ExportLine(quote, envs[k])
      invariant forall k :: 0 <= k < j ==> lines[2 + |envs| + k] == MountLine(quote, mounts[k])
    {
      lines := lines + [MountLine(quote, mounts[j])];
    }
  }

  /** Loop state of ListContainers: the entries outside `pending` have been probed, the others not yet. */
  ghost predicate RefreshedExcept(cs0: map<string, FakeContainer>, cs: map<string, FakeContainer>,
                                  alive: set<string>, pending: set<string>)
  {
    && cs.Keys == cs0.Keys
    && (forall id :: id in cs && id !in pending ==> cs[id] == Probed(cs0[id], id in alive))
    && (forall id :: id in cs && id in pending ==> cs[id] == cs0[id])
  }

  /** Loop state of ListContainers: the log grew by one `ct check` per RUNNING entry probed so far. */
  ghost predicate ProbesLogged(node: string, cs0: map<string, FakeContainer>, calls0: seq<Invocation>,
                               calls: seq<Invocation>, pending: set<string>)
  {
    && |calls0| <= |calls| && calls[..|calls0|] == calls0
    && (forall inv :: inv in calls[|calls0|..] <==> inv in ProbeCalls(node, cs0, cs0.Keys - pending))
    && (forall i :: |calls0| <= i < |calls| ==> calls[i].CtCheck? && calls[i].containerId !in pending)
    && (forall i, j :: |calls0| <= i < j < |calls| ==> calls[i] != calls[j])
  }

  /** Loop state of ListContainers: each selected entry outside `pending` is listed exactly once. */
  ghost predicate ItemsListed(filter: Option<ContainerFilter>, cs: map<string, FakeContainer>,
                              pending: set<string>, items: seq<Container>)
  {
    && (forall i :: 0 <= i < |items| ==>
          && items[i].id in cs && items[i].id !in pending
          && ContainerSelected(filter, cs[items[i].id])
          && items[i] == ContainerItem(cs[items[i].id]))
    && (forall id :: id in cs && id !in pending && ContainerSelected(filter, cs[id]) ==>
          ContainerItem(cs[id]) in items)
    && (forall i, j :: 0 <= i < j < |items| ==> items[i].id != items[j].id)
  }

  lemma ProbeStep(node: string, cs0: map<string, FakeContainer>, calls0: seq<Invocation>,
                  calls: seq<Invocation>, calls': seq<Invocation>, pending: set<string>, id: string)
    requires ProbesLogged(node, cs0, calls0, calls, pending)
    requires id in pending && id in cs0
    requires calls' == calls + if cs0[id].status.state == ContainerRunning
                               then [CtCheck(node, cs0[id].sandboxId, id)] else []
    ensures ProbesLogged(node, cs0, calls0, calls', pending - {id})
  {
    var done := cs0.Keys - pending;
    assert cs0.Keys - (pending - {id}) == done + {id};
    var added := if cs0[id].status.state == ContainerRunning then {CtCheck(node, cs0[id].sandboxId, id)} else {};
    assert ProbeCalls(node, cs0, done + {id}) == ProbeCalls(node, cs0, done) + added;
    assert calls'[|calls0|..] == calls[|calls0|..] + calls'[|calls|..];
    assert calls'[..|calls0|] == calls[..|calls0|];
  }

  lemma ItemsStep(filter: Option<ContainerFilter>, cs: map<string, FakeContainer>, pending: set<string>,
                  items: seq<Container>, id: string, c: FakeContainer)
    requires ItemsListed(filter, cs, pending, items)
    requires id in pending && id in cs && c.status.id == id
    ensures !ContainerSelected(filter, c) ==> ItemsListed(filter, cs[id := c], pending - {id}, items)
    ensures ContainerSelected(filter, c) ==>
      ItemsListed(filter, cs[id := c], pending - {id}, items + [ContainerItem(c)])
  {
  }

  lemma RefreshStep(cs0: map<string, FakeContainer>, cs: map<string, FakeContainer>, alive: set<string>,
                    pending: set<string>, id: string)
    requires RefreshedExcept(cs0, cs, alive, pending) && id in pending && id in cs
    ensures RefreshedExcept(cs0, cs[id := Probed(cs[id], id in alive)], alive, pending - {id})
  {
  }

  lemma RefreshDone(cs0: map<string, FakeContainer>, cs: map<string, FakeContainer>, alive: set<string>)
    requires RefreshedExcept(cs0, cs, alive, {})
    ensures cs == Refreshed(cs0, alive)
  {
  }

  class RuntimeService {
    const node: string
    var sandboxes: map<string, FakePodSandbox>
    var containers: map<string, FakeContainer>
    ghost var calls: seq<Invocation>

    ghost predicate Valid()
      reads this
    {
      && (forall id :: id in sandboxes ==> SandboxEntryOk(id, sandboxes[id]))
      && (forall id :: id in containers ==> ContainerEntryOk(id, containers[id]))
    }

    constructor (node: string)
      ensures Valid() && this.node == node
      ensures sandboxes == map[] && containers == map[] && calls == []
    {
      this.node := node;
      sandboxes := map[];
      containers := map[];
      calls := [];
    }

    /**
     `pod create`, then `showip`; only when both succeed is a READY entry
     registered (replacing any entry with the same ID) and its ID returned.
     */
    method RunPodSandbox(config: PodSandboxConfig, now: int, createOk: bool, showIp: Option<string>)
      returns (r: Result<string>)
      requires Valid()
      modifies this
      ensures Valid() && containers == old(containers)
      ensures var id := BuildSandboxName(config.metadata);
        && calls == old(calls) + [PodCreate(node, id, config.hostname)]
                               + (if createOk then [ShowIp(config.hostname)] else [])
        && if createOk && showIp.Some? then
             && r == Ok(id)
             && sandboxes == old(sandboxes)[id := FakePodSandbox(
                  Cri.PodSandboxStatus(id, config.metadata, SandboxReady, now, showIp.value,
                                   config.labels, config.annotations),
                  config.hostname)]
           else
             r == Err(ExecutorFailed) && sandboxes == old(sandboxes)
    {
      var id := BuildSandboxName(config.metadata);
      var createdAt := now;
      calls := calls + [PodCreate(node, id, config.hostname)];
      if !createOk {
        return Err(ExecutorFailed);
      }
      calls := calls + [ShowIp(config.hostname)];
      if showIp.None? {
        return Err(ExecutorFailed);
      }
      var ip := showIp.value;
      var status := Cri.PodSandboxStatus(id, config.metadata, SandboxReady, createdAt, ip,
                                     config.labels, config.annotations);
      sandboxes := sandboxes[id := FakePodSandbox(status, config.hostname)];
      return Ok(id);
    }

    /** Flip a known sandbox to NOT_READY; no helper program is run. */
    method StopPodSandbox(id: string) returns (r: Result<()>)
      requires Valid()
      modifies this
      ensures Valid() && containers == old(containers) && calls == old(calls)
      ensures id in old(sandboxes) ==>
        r == Ok(()) && sandboxes == old(sandboxes)[id := MarkNotReady(old(sandboxes)[id])]
      ensures id !in old(sandboxes) ==>
        r == Err(SandboxNotFound(id)) && sandboxes == old(sandboxes)
    {
      if id in sandboxes {
        var sb := sandboxes[id];
        sandboxes := sandboxes[id := sb.(status := sb.status.(state := SandboxNotReady))];
      } else {
        return Err(SandboxNotFound(id));
      }
      return Ok(());
    }

    /**
     `pod remove` for a known sandbox, whose outcome is ignored, then the entry
     is deleted. The containers that refer to it stay.
     */
    method RemovePodSandbox(id: string) returns (r: Result<()>)
      requires Valid()
      modifies this
      ensures Valid() && containers == old(containers)
      ensures id in old(sandboxes) ==>
        && r == Ok(())
        && sandboxes == old(sandboxes) - {id}
        && calls == old(calls) + [PodRemove(node, id, old(sandboxes)[id].hostname)]
      ensures id !in old(sandboxes) ==>
        r == Err(SandboxNotFound(id)) && sandboxes == old(sandboxes) && calls == old(calls)
    {
      if id in sandboxes {
        calls := calls + [PodRemove(node, id, sandboxes[id].hostname)];
      } else {
        return Err(SandboxNotFound(id));
      }
      sandboxes := sandboxes - {id};
      return Ok(());
    }

    method PodSandboxStatus(id: string) returns (r: Result<PodSandboxStatus>)
      ensures id in sandboxes ==> r == Ok(sandboxes[id].status)
      ensures id !in sandboxes ==> r == Err(SandboxNotFound(id))
    {
      if id !in sandboxes {
        return Err(SandboxNotFound(id));
      }
      return Ok(sandboxes[id].status);
    }

    /** Each selected sandbox exactly once, in no particular order. */
    method ListPodSandbox(filter: Option<PodSandboxFilter>) returns (items: seq<PodSandbox>)
      requires Valid()
      ensures forall i :: 0 <= i < |items| ==>
        items[i].id in SelectedSandboxIds(sandboxes, filter) && items[i] == SandboxItem(sandboxes[items[i].id])
      ensures forall id :: id in SelectedSandboxIds(sandboxes, filter) ==> SandboxItem(sandboxes[id]) in items
      ensures forall i, j :: 0 <= i < j < |items| ==> items[i].id != items[j].id
    {
      items := [];
      var pending := sandboxes.Keys;
      while pending != {}
        invariant pending <= sandboxes.Keys
        invariant forall i :: 0 <= i < |items| ==>
          && items[i].id in sandboxes && items[i].id !in pending
          && SandboxSelected(filter, items[i].id, sandboxes[items[i].id])
          && items[i] == SandboxItem(sandboxes[items[i].id])
        invariant forall id :: id in sandboxes && id !in pending && SandboxSelected(filter, id, sandboxes[id]) ==>
          SandboxItem(sandboxes[id]) in items
        invariant forall i, j :: 0 <= i < j < |items| ==> items[i].id != items[j].id
        decreases pending
      {
        var id :| id in pending;
        pending := pending - {id};
        var sb := sandboxes[id];
        if filter.Some? {
          var f := filter.value;
          if f.id != "" && f.id != id {
            continue;
          }
          if f.state.Some? && f.state.value != sb.status.state {
            continue;
          }
          var labelsOk := FilterInLabels(f.labelSelector, sb.status.labels);
          if !labelsOk {
            continue;
          }
        }
        items := items + [SandboxItem(sb)];
      }
    }

    /**
     Register a CREATED entry under the container ID, replacing any entry with
     that ID, once the init script is written. Whether the sandbox exists is
     not checked.
     */
    method CreateContainer(sandboxId: string, config: ContainerConfig, now: int, writeOk: bool)
      returns (r: Result<string>)
      requires Valid()
      modifies this
      ensures Valid() && sandboxes == old(sandboxes) && calls == old(calls)
      ensures var id := BuildContainerName(config.metadata, sandboxId);
        if writeOk then
          && r == Ok(id)
          && containers == old(containers)[id := FakeContainer(
               Cri.ContainerStatus(id, config.metadata, ContainerCreated, now, 0, 0, config.image, config.image,
                               config.labels, config.annotations),
               sandboxId)]
        else
          r == Err(InitWriteFailed) && containers == old(containers)
    {
      var id := BuildContainerName(config.metadata, sandboxId);
      var createdAt := now;
      var imageRef := config.image;
      if !writeOk {
        return Err(InitWriteFailed);
      }
      var status := Cri.ContainerStatus(id, config.metadata, ContainerCreated, createdAt, 0, 0, config.image, imageRef,
                                    config.labels, config.annotations);
      containers := containers[id := FakeContainer(status, sandboxId)];
      return Ok(id);
    }

    /**
     The entry is marked RUNNING with its start time BEFORE `ct start` runs, and
     stays so when `ct start` fails.
     */
    method StartContainer(id: string, now: int, startOk: bool) returns (r: Result<()>)
      requires Valid()
      modifies this
      ensures Valid() && sandboxes == old(sandboxes)
      ensures id !in old(containers) ==>
        r == Err(ContainerNotFound(id)) && containers == old(containers) && calls == old(calls)
      ensures id in old(containers) && old(containers)[id].sandboxId !in sandboxes ==>
        && r == Err(SandboxNotFound(old(containers)[id].sandboxId))
        && containers == old(containers) && calls == old(calls)
      ensures id in old(containers) && old(containers)[id].sandboxId in sandboxes ==>
        var c := old(containers)[id];
        && containers == old(containers)[id := MarkRunning(c, now)]
        && calls == old(calls) + [CtStart(node, c.sandboxId, sandboxes[c.sandboxId].hostname, id, c.status.imageRef)]
        && r == (if startOk then Ok(()) else Err(ExecutorFailed))
    {
      if id !in containers {
        return Err(ContainerNotFound(id));
      }
      var c := containers[id];
      var sandboxId := c.sandboxId;
      if sandboxId !in sandboxes {
        return Err(SandboxNotFound(sandboxId));
      }
      var sb := sandboxes[sandboxId];
      var startedAt := now;
      c := c.(status := c.status.(state := ContainerRunning, startedAt := startedAt));
      containers := containers[id := c];
      calls := calls + [CtStart(node, sandboxId, sb.hostname, id, c.status.imageRef)];
      if !startOk {
        return Err(ExecutorFailed);
      }
      return Ok(());
    }

    /**
     The entry is marked EXITED with its finish time BEFORE `ct stop` runs, and
     stays so when `ct stop` fails; the failure is still the call's answer.
     */
    method StopContainer(id: string, now: int, stopOk: bool) returns (r: Result<()>)
      requires Valid()
      modifies this
      ensures Valid() && sandboxes == old(sandboxes)
      ensures id !in old(containers) ==>
        r == Err(ContainerNotFound(id)) && containers == old(containers) && calls == old(calls)
      ensures id in old(containers) ==>
        var c := old(containers)[id];
        && containers == old(containers)[id := MarkExited(c, now)]
        && calls == old(calls) + [CtStop(node, c.sandboxId, id)]
        && r == (if stopOk then Ok(()) else Err(ExecutorFailed))
    {
      if id !in containers {
        return Err(ContainerNotFound(id));
      }
      var c := containers[id];
      var finishedAt := now;
      c := c.(status := c.status.(state := ContainerExited, finishedAt := finishedAt));
      containers := containers[id := c];
      calls := calls + [CtStop(node, c.sandboxId, id)];
      if !stopOk {
        return Err(ExecutorFailed);
      }
      return Ok(());
    }

    /** Unconditional delete: an unknown ID is a successful no-op. */
    method RemoveContainer(id: string) returns (r: Result<()>)
      requires Valid()
      modifies this
      ensures Valid() && r == Ok(())
      ensures containers == old(containers) - {id}
      ensures sandboxes == old(sandboxes) && calls == old(calls)
    {
      containers := containers - {id};
      return Ok(());
    }

    /**
     The liveness probe on one entry: only a RUNNING entry is checked, and a
     failed `ct check` turns it EXITED.
     */
    method CheckState(id: string, checkOk: bool)
      requires Valid() && id in containers
      modifies this
      ensures Valid() && sandboxes == old(sandboxes)
      ensures containers == old(containers)[id := Probed(old(containers)[id], checkOk)]
      ensures calls == old(calls) + if old(containers)[id].status.state == ContainerRunning
                                    then [CtCheck(node, old(containers)[id].sandboxId, id)] else []
    {
      var c := containers[id];
      if c.status.state != ContainerRunning {
        return;
      }
      calls := calls + [CtCheck(node, c.sandboxId, c.status.id)];
      if !checkOk {
        containers := containers[id := c.(status := c.status.(state := ContainerExited))];
      }
    }

    /** The status of a known container, after probing it. */
    method ContainerStatus(id: string, checkOk: bool) returns (r: Result<ContainerStatus>)
      requires Valid()
      modifies this
      ensures Valid() && sandboxes == old(sandboxes)
      ensures id !in old(containers) ==>
        r == Err(ContainerNotFound(id)) && containers == old(containers) && calls == old(calls)
      ensures id in old(containers) ==>
        && containers == old(containers)[id := Probed(old(containers)[id], checkOk)]
        && r == Ok(containers[id].status)
        && calls == old(calls) + if old(containers)[id].status.state == ContainerRunning
                                 then [CtCheck(node, old(containers)[id].sandboxId, id)] else []
    {
      if id !in containers {
        return Err(ContainerNotFound(id));
      }
      CheckState(id, checkOk);
      return Ok(containers[id].status);
    }

    /**
     Probe every entry (each RUNNING one exactly once), then answer each
     selected entry, as refreshed, exactly once, in no particular order.
     */
    method ListContainers(filter: Option<ContainerFilter>, alive: set<string>) returns (items: seq<Container>)
      requires Valid()
      modifies this
      ensures Valid() && sandboxes == old(sandboxes)
      ensures containers == Refreshed(old(containers), alive)
      ensures |old(calls)| <= |calls| && calls[..|old(calls)|] == old(calls)
      ensures forall inv :: inv in calls[|old(calls)|..] <==> inv in ProbeCalls(node, old(containers), old(containers).Keys)
      ensures forall i, j :: |old(calls)| <= i < j < |calls| ==> calls[i] != calls[j]
      ensures forall i :: 0 <= i < |items| ==>
        items[i].id in SelectedContainerIds(containers, filter) && items[i] == ContainerItem(containers[items[i].id])
      ensures forall id :: id in SelectedContainerIds(containers, filter) ==> ContainerItem(containers[id]) in items
      ensures forall i, j :: 0 <= i < j < |items| ==> items[i].id != items[j].id
    {
      ghost var cs0, calls0 := containers, calls;
      items := [];
      var pending := containers.Keys;
      while pending != {}
        invariant Valid() && sandboxes == old(sandboxes)
        invariant pending <= containers.Keys
        invariant RefreshedExcept(cs0, containers, alive, pending)
        invariant ProbesLogged(node, cs0, calls0, calls, pending)
        invariant ItemsListed(filter, containers, pending, items)
        decreases pending
      {
        var id :| id in pending;
        ghost var callsBefore, csBefore, pendingBefore := calls, containers, pending;
        CheckState(id, id in alive);
        ProbeStep(node, cs0, calls0, callsBefore, calls, pending, id);
        RefreshStep(cs0, csBefore, alive, pending, id);
        pending := pending - {id};
        var c := containers[id];
        ItemsStep(filter, csBefore, pendingBefore, items, id, c);
        if filter.Some? {
          var f := filter.value;
          if f.id != "" && f.id != c.status.id {
            continue;
          }
          if f.podSandboxId != "" && f.podSandboxId != c.sandboxId {
            continue;
          }
          if f.state.Some? && f.state.value != c.status.state {
            continue;
          }
          var labelsOk := FilterInLabels(f.labelSelector, c.status.labels);
          if !labelsOk {
            continue;
          }
        }
        items := items + [ContainerItem(c)];
      }
      RefreshDone(cs0, containers, alive);
    }
  }

  /** Stopping a sandbox twice leaves it as stopping it once. */
  lemma MarkNotReadyIdempotent(sb: FakePodSandbox)
    ensures MarkNotReady(MarkNotReady(sb)) == MarkNotReady(sb)
    ensures MarkNotReady(sb).status.(state := sb.status.state) == sb.status
    ensures MarkNotReady(sb).hostname == sb.hostname
  {
  }

  /**
   The probe leaves CREATED and EXITED entries alone, keeps a RUNNING entry
   RUNNING exactly when its check succeeds, and never changes anything but the
   state (the finish time in particular stays as it was).
   */
  lemma ProbeOnlyTouchesRunning(c: FakeContainer, checkOk: bool)
    ensures c.status.state != ContainerRunning ==> Probed(c, checkOk) == c
    ensures c.status.state == ContainerRunning ==>
      (Probed(c, checkOk).status.state == ContainerRunning <==> checkOk)
    ensures Probed(c, checkOk).status.state == ContainerRunning ==> c.status.state == ContainerRunning
    ensures Probed(c, checkOk).status.(state := c.status.state) == c.status
    ensures Probed(c, checkOk).sandboxId == c.sandboxId
  {
  }

  /** Refreshing again with the same probe answers changes nothing more. */
  lemma RefreshIdempotent(containers: map<string, FakeContainer>, alive: set<string>)
    ensures Refreshed(containers, alive).Keys == containers.Keys
    ensures Refreshed(Refreshed(containers, alive), alive) == Refreshed(containers, alive)
  {
    var once := Refreshed(containers, alive);
    forall id | id in once
      ensures Probed(once[id], id in alive) == once[id]
    {
      ProbeOnlyTouchesRunning(containers[id], id in alive);
    }
  }

  /** With no filter, or with a filter whose every condition is unset, every sandbox is listed. */
  lemma NoSandboxFilterSelectsAll(sandboxes: map<string, FakePodSandbox>)
    ensures SelectedSandboxIds(sandboxes, None) == sandboxes.Keys
    ensures SelectedSandboxIds(sandboxes, Some(PodSandboxFilter("", None, map[]))) == sandboxes.Keys
  {
  }

  /** The sandbox filter is the AND of its id, state and label conditions taken one at a time. */
  lemma SandboxFilterIsConjunction(sandboxes: map<string, FakePodSandbox>, f: PodSandboxFilter)
    ensures SelectedSandboxIds(sandboxes, Some(f))
         == SelectedSandboxIds(sandboxes, Some(PodSandboxFilter(f.id, None, map[])))
          * SelectedSandboxIds(sandboxes, Some(PodSandboxFilter("", f.state, map[])))
          * SelectedSandboxIds(sandboxes, Some(PodSandboxFilter("", None, f.labelSelector)))
  {
  }

  /** A non-empty id condition selects at most that one sandbox. */
  lemma SandboxIdFilterSelectsOne(sandboxes: map<string, FakePodSandbox>, f: PodSandboxFilter)
    requires f.id != ""
    ensures SelectedSandboxIds(sandboxes, Some(f)) <= {f.id}
    ensures |SelectedSandboxIds(sandboxes, Some(f))| <= 1
  {
    var s := SelectedSandboxIds(sandboxes, Some(f));
    if f.id in s {
      assert s == {f.id};
    } else {
      assert s == {};
    }
  }

  /** With no filter, or with a filter whose every condition is unset, every container is listed. */
  lemma NoContainerFilterSelectsAll(containers: map<string, FakeContainer>)
    ensures SelectedContainerIds(containers, None) == containers.Keys
    ensures SelectedContainerIds(containers, Some(ContainerFilter("", "", None, map[]))) == containers.Keys
  {
  }

  /** The container filter is the AND of its id, sandbox, state and label conditions. */
  lemma ContainerFilterIsConjunction(containers: map<string, FakeContainer>, f: ContainerFilter)
    ensures SelectedContainerIds(containers, Some(f))
         == SelectedContainerIds(containers, Some(ContainerFilter(f.id, "", None, map[])))
          * SelectedContainerIds(containers, Some(ContainerFilter("", f.podSandboxId, None, map[])))
          * SelectedContainerIds(containers, Some(ContainerFilter("", "", f.state, map[])))
          * SelectedContainerIds(containers, Some(ContainerFilter("", "", None, f.labelSelector)))
  {
  }

  /** No registered container is ever UNKNOWN, so asking for that state lists nothing. */
  lemma UnknownStateSelectsNothing(containers: map<string, FakeContainer>, f: ContainerFilter)
    requires forall id :: id in containers ==> ContainerEntryOk(id, containers[id])
    requires f.state == Some(ContainerUnknown)
    ensures SelectedContainerIds(containers, Some(f)) == {}
  {
  }
}
