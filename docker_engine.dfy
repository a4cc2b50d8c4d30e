/**
 * The Docker engine as the execution service sees it: a table of containers,
 * each with an image, a run state and the files deployed into it, plus the
 * set of images present locally. Every call may fail for reasons outside the
 * model (the daemon, the network, a conflicting state); a call that fails
 * changes nothing.
 */
module DockerEngine {
  import opened Wrappers

  type ContainerId = nat
  /** The handle of an attached exec stream. */
  type StreamId = nat

  datatype ContainerState = Running | Paused | Stopped

  datatype Container = Container(image: string, state: ContainerState, files: map<string, string>)

  /** One entry of `listContainers({ all: true })`. */
  datatype ContainerSummary = ContainerSummary(id: ContainerId, image: string, state: ContainerState)

  /** The `State.Running` and `State.Paused` flags of `inspect()`; a paused container counts as running. */
  datatype InspectData = InspectData(running: bool, paused: bool)

  function InspectOf(state: ContainerState): InspectData
  {
    match state
    case Running => InspectData(true, false)
    case Paused => InspectData(true, true)
    case Stopped => InspectData(false, false)
  }

  /** `listing` enumerates `containers` once each, with their images and states. */
  ghost predicate Listing(containers: map<ContainerId, Container>, listing: seq<ContainerSummary>)
  {
    && (forall i :: 0 <= i < |listing| ==> Describes(containers, listing[i]))
    && (forall i, j :: 0 <= i < j < |listing| ==> listing[i].id != listing[j].id)
    && Ids(listing) == containers.Keys
  }

  /** `entry` reports an existing container's image and state. */
  ghost predicate Describes(containers: map<ContainerId, Container>, entry: ContainerSummary)
  {
    entry.id in containers && entry.image == containers[entry.id].image && entry.state == containers[entry.id].state
  }

  /** The identifiers a listing mentions. */
  function Ids(listing: seq<ContainerSummary>): set<ContainerId>
  {
    if listing == [] then {} else Ids(listing[..|listing| - 1]) + {listing[|listing| - 1].id}
  }

  class Engine {
    var containers: map<ContainerId, Container>
    var images: set<string>
    /** Identifiers are never reused: every container ever created has a smaller one. */
    var nextId: nat
    var nextStream: nat

    ghost predicate Valid()
      reads this
    {
      forall id :: id in containers ==> id < nextId
    }

    constructor (containers: map<ContainerId, Container>, images: set<string>, nextId: nat)
      requires forall id :: id in containers ==> id < nextId
      ensures Valid()
      ensures this.containers == containers && this.images == images && this.nextId == nextId
    {
      this.containers := containers;
      this.images := images;
      this.nextId := nextId;
      this.nextStream := 0;
    }

    method ListContainers() returns (r: Result<seq<ContainerSummary>>)
      ensures r.Ok? ==> Listing(containers, r.value)
    {
      var fails: bool :| true;
      if fails {
        return Err("listContainers failed");
      }
      var remaining := containers.Keys;
      var listing: seq<ContainerSummary> := [];
      while remaining != {}
        invariant remaining <= containers.Keys
        invariant forall i :: 0 <= i < |listing| ==> Describes(containers, listing[i]) && listing[i].id !in remaining
        invariant forall i, j :: 0 <= i < j < |listing| ==> listing[i].id != listing[j].id
        invariant Ids(listing) == containers.Keys - remaining
        decreases |remaining|
      {
        var id :| id in remaining;
        var c := containers[id];
        ghost var before := listing;
        listing := listing + [ContainerSummary(id, c.image, c.state)];
        assert listing[..|listing| - 1] == before;
        remaining := remaining - {id};
      }
      return Ok(listing);
    }

    /** `container.inspect()`: fails for a container that no longer exists. */
    method Inspect(id: ContainerId) returns (r: Result<InspectData>)
      ensures id !in containers ==> r.Err?
      ensures r.Ok? ==> id in containers && r.value == InspectOf(containers[id].state)
    {
      var fails: bool :| true;
      if fails || id !in containers {
        return Err("no such container");
      }
      return Ok(InspectOf(containers[id].state));
    }

    /** `container.start()`: only a stopped container starts; on success it is running. */
    method Start(id: ContainerId) returns (ok: bool)
      modifies this
      ensures ok ==> (id in old(containers) && old(containers)[id].state == Stopped &&
                      containers == old(containers)[id := old(containers)[id].(state := Running)])
      ensures !ok ==> containers == old(containers)
      ensures images == old(images) && nextId == old(nextId) && nextStream == old(nextStream)
    {
      ok :| true;
      if ok && id in containers && containers[id].state == Stopped {
        containers := containers[id := containers[id].(state := Running)];
      } else {
        ok := false;
      }
    }

    /** `container.unpause()`: on success the container is running. */
    method Unpause(id: ContainerId) returns (ok: bool)
      modifies this
      ensures ok ==> (id in old(containers) && old(containers)[id].state == Paused &&
                      containers == old(containers)[id := old(containers)[id].(state := Running)])
      ensures !ok ==> containers == old(containers)
      ensures images == old(images) && nextId == old(nextId) && nextStream == old(nextStream)
    {
      ok :| true;
      if ok && id in containers && containers[id].state == Paused {
        containers := containers[id := containers[id].(state := Running)];
      } else {
        ok := false;
      }
    }

    /** `container.stop({ t: 1 })`. */
    method Stop(id: ContainerId) returns (ok: bool)
      modifies this
      ensures ok ==> (id in old(containers) &&
                      containers == old(containers)[id := old(containers)[id].(state := Stopped)])
      ensures !ok ==> containers == old(containers)
      ensures images == old(images) && nextId == old(nextId) && nextStream == old(nextStream)
    {
      ok :| true;
      if ok && id in containers {
        containers := containers[id := containers[id].(state := Stopped)];
      } else {
        ok := false;
      }
    }

    /** `container.remove()`. */
    method Remove(id: ContainerId) returns (ok: bool)
      modifies this
      ensures ok ==> id in old(containers) && containers == old(containers) - {id}
      ensures !ok ==> containers == old(containers)
      ensures images == old(images) && nextId == old(nextId) && nextStream == old(nextStream)
    {
      ok :| true;
      if ok && id in containers {
        containers := containers - {id};
      } else {
        ok := false;
      }
    }

    /** `getImage(image).inspect()`: succeeds only for an image present locally. */
    method InspectImage(image: string) returns (ok: bool)
      ensures ok ==> image in images
    {
      ok :| true;
      ok := ok && image in images;
    }

    /** `pull(image)` followed to completion. */
    method Pull(image: string) returns (ok: bool)
      modifies this
      ensures images == if ok then old(images) + {image} else old(images)
      ensures containers == old(containers) && nextId == old(nextId) && nextStream == old(nextStream)
    {
      ok :| true;
      if ok {
        images := images + {image};
      }
    }

    /** `createContainer({ Image: image, … })`: a new, not yet started container from a local image. */
    method CreateContainer(image: string) returns (r: Result<ContainerId>)
      requires Valid()
      modifies this
      ensures Valid()
      ensures image !in old(images) ==> r.Err?
      ensures r.Ok? ==> (r.value == old(nextId) && nextId == old(nextId) + 1 &&
                         containers == old(containers)[r.value := Container(image, Stopped, map[])])
      ensures r.Err? ==> containers == old(containers) && nextId == old(nextId)
      ensures images == old(images) && nextStream == old(nextStream)
    {
      var fails: bool :| true;
      if fails || image !in images {
        return Err("create failed");
      }
      var id := nextId;
      containers := containers[id := Container(image, Stopped, map[])];
      nextId := nextId + 1;
      return Ok(id);
    }

    /** A detached `exec` (the `mkdir -p` of the deployment directory); only a running container accepts one. */
    method ExecDetached(id: ContainerId, command: seq<string>) returns (ok: bool)
      ensures ok ==> id in containers && containers[id].state == Running
    {
      ok :| true;
      ok := ok && id in containers && containers[id].state == Running;
    }

    /** `putArchive` of a one-file archive: the file `name` under `dir` now holds `content`. */
    method PutArchive(id: ContainerId, dir: string, name: string, content: string) returns (ok: bool)
      modifies this
      ensures ok ==> (id in old(containers) &&
                      containers == old(containers)[id := old(containers)[id].(files := old(containers)[id].files[dir + "/" + name := content])])
      ensures !ok ==> containers == old(containers)
      ensures images == old(images) && nextId == old(nextId) && nextStream == old(nextStream)
    {
      ok :| true;
      if ok && id in containers {
        var c := containers[id];
        containers := containers[id := c.(files := c.files[dir + "/" + name := content])];
      } else {
        ok := false;
      }
    }

    /** An attached `exec` of `command`, started with a hijacked stream; only a running container accepts one. */
    method ExecAttached(id: ContainerId, command: seq<string>) returns (r: Result<StreamId>)
      modifies this
      ensures r.Ok? ==> id in containers && containers[id].state == Running && r.value == old(nextStream)
      ensures containers == old(containers) && images == old(images) && nextId == old(nextId)
    {
      var fails: bool :| true;
      if fails || id !in containers || containers[id].state != Running {
        return Err("exec failed");
      }
      r := Ok(nextStream);
      nextStream := nextStream + 1;
    }
  }
}
