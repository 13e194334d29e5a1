/** The Docker engine as `internal/docker/minecraft.go` drives it: containers and named volumes.
    Every call may fail; a failed call may or may not have taken effect. */
module DockerHosts {
  import opened Text
  import opened Models

  datatype Container = Container(name: string, port: int, volume: string, running: bool)

  /** What the outside world decides about one engine call. `Lost` takes effect but still reports an error. */
  datatype Outcome = Done | Refused(text: string) | Lost(text: string)

  datatype DockerError = NotFound | Failed(text: string)

  /** The error text shown on a server record; never empty. */
  function ErrorText(e: DockerError): (t: string)
    ensures t != ""
  {
    match e
    case NotFound => "docker: resource not found"
    case Failed(text) => "docker: " + text
  }

  /** `content` is what the game has written to the volume, oldest first.
      `issued` holds every container ID the engine has ever handed out. */
  datatype Host = Host(containers: map<string, Container>, volumes: map<string, seq<string>>, issued: set<string>)

  predicate NameInUse(h: Host, name: string) {
    exists c | c in h.containers :: h.containers[c].name == name
  }

  predicate VolumeInUse(h: Host, volume: string) {
    exists c | c in h.containers :: h.containers[c].volume == volume
  }

  predicate PortBound(h: Host, port: int) {
    exists c | c in h.containers :: h.containers[c].running && h.containers[c].port == port
  }

  function ErrorOf(o: Outcome): Option<DockerError> {
    match o
    case Done => None
    case Refused(text) => Some(Failed(text))
    case Lost(text) => Some(Failed(text))
  }

  /** Creating a volume that already exists is a no-op that keeps its content. */
  function WithVolume(h: Host, volume: string): Host {
    if volume in h.volumes then h else h.(volumes := h.volumes[volume := []])
  }

  function VolumeCreate(h: Host, volume: string, o: Outcome): (Host, Option<DockerError>) {
    (if o.Refused? then h else WithVolume(h, volume), ErrorOf(o))
  }

  /** Refuses a name that is in use. Mounting a named volume brings it into being. A failed create leaves nothing. */
  function ContainerCreate(h: Host, id: string, c: Container, failure: Option<string>): (Host, Option<DockerError>) {
    if NameInUse(h, c.name) then (h, Some(Failed("conflict: name in use")))
    else
      match failure
      case Some(text) => (h, Some(Failed(text)))
      case None =>
        var mounted := WithVolume(h, c.volume);
        (mounted.(containers := h.containers[id := c], issued := h.issued + {id}), None)
  }

  /** A call on something that is not there: the engine says so, unless it fails before it gets to look. */
  function Missing(o: Outcome): Option<DockerError> {
    if o.Done? then Some(NotFound) else ErrorOf(o)
  }

  /** Refuses to publish a host port that another running container holds. */
  function ContainerStart(h: Host, id: string, o: Outcome): (Host, Option<DockerError>) {
    if id !in h.containers then (h, Missing(o))
    else if !h.containers[id].running && PortBound(h, h.containers[id].port) then
      (h, Some(Failed("port is already allocated")))
    else (if o.Refused? then h else SetRunning(h, id, true), ErrorOf(o))
  }

  function ContainerStop(h: Host, id: string, o: Outcome): (Host, Option<DockerError>) {
    if id !in h.containers then (h, Missing(o))
    else (if o.Refused? then h else SetRunning(h, id, false), ErrorOf(o))
  }

  function ContainerRemove(h: Host, id: string, o: Outcome): (Host, Option<DockerError>) {
    if id !in h.containers then (h, Missing(o))
    else (if o.Refused? then h else WithoutContainer(h, id), ErrorOf(o))
  }

  /** Refuses to remove a volume that a container still mounts. */
  function VolumeRemove(h: Host, volume: string, o: Outcome): (Host, Option<DockerError>) {
    if volume !in h.volumes then (h, Missing(o))
    else if VolumeInUse(h, volume) then (h, Some(Failed("volume is in use")))
    else (if o.Refused? then h else h.(volumes := h.volumes - {volume}), ErrorOf(o))
  }

  function SetRunning(h: Host, id: string, running: bool): Host
    requires id in h.containers
  {
    h.(containers := h.containers[id := h.containers[id].(running := running)])
  }

  function WithoutContainer(h: Host, id: string): Host {
    h.(containers := h.containers - {id})
  }

  /** A running game appends to its world. */
  function Saved(h: Host, c: string, chunk: string): Host {
    if c in h.containers && h.containers[c].running && h.containers[c].volume in h.volumes then
      var v := h.containers[c].volume;
      h.(volumes := h.volumes[v := h.volumes[v] + [chunk]])
    else h
  }

  /** What the platform asks of the engine to host one server. */
  datatype Spec = Spec(containerName: string, volumeName: string, hostPort: int)

  function SpecFor(srv: Server): Spec {
    Spec(ContainerName(srv.id), VolumeName(srv.id), srv.port)
  }

  /** The engine decisions one request may meet, and the container ID it would mint. `restart` is for the second start call
      of a start whose first one found no container. */
  datatype Faults = Faults(
    volumeCreate: Outcome, containerCreate: Option<string>, newContainer: string,
    start: Outcome, restart: Outcome, stop: Outcome, remove: Outcome, volumeRemove: Outcome)

  predicate FaultFree(f: Faults) {
    f.volumeCreate.Done? && f.containerCreate.None? && f.start.Done? && f.restart.Done? && f.stop.Done? && f.remove.Done?
    && f.volumeRemove.Done?
  }

  /** `Client.CreateServer`: the volume first, then a stopped container that mounts it. */
  function Provision(h: Host, spec: Spec, f: Faults): (Host, Result<string, DockerError>) {
    var (withVolume, volumeError) := VolumeCreate(h, spec.volumeName, f.volumeCreate);
    if volumeError.Some? then (withVolume, Err(volumeError.value))
    else
      var c := Container(spec.containerName, spec.hostPort, spec.volumeName, false);
      var (h', error) := ContainerCreate(withVolume, f.newContainer, c, f.containerCreate);
      (h', if error.Some? then Err(error.value) else Ok(f.newContainer))
  }

  /** `Client.RemoveServer`: the container, and on request its volume; a missing resource is not an error. */
  function Teardown(h: Host, id: string, volume: string, removeVolume: bool, f: Faults)
    : (Host, Option<DockerError>)
  {
    var (h1, error) := ContainerRemove(h, id, f.remove);
    if error.Some? && error.value.Failed? then (h1, error)
    else if !removeVolume then (h1, None)
    else
      var (h2, volumeError) := VolumeRemove(h1, volume, f.volumeRemove);
      (h2, if volumeError.Some? && volumeError.value.Failed? then volumeError else None)
  }

  /** The engine client. */
  class Client {
    var containers: map<string, Container>
    var volumes: map<string, seq<string>>
    var issued: set<string>

    constructor ()
      ensures View() == Host(map[], map[], {})
    {
      containers, volumes, issued := map[], map[], {};
    }

    function View(): Host
      reads this
    {
      Host(containers, volumes, issued)
    }

    method CreateServer(spec: Spec, f: Faults) returns (result: Result<string, DockerError>)
      modifies this
      ensures (View(), result) == Provision(old(View()), spec, f)
    {
      if !f.volumeCreate.Refused? && spec.volumeName !in volumes {
        volumes := volumes[spec.volumeName := []];
      }
      if !f.volumeCreate.Done? {
        return Err(Failed(f.volumeCreate.text));
      }
      if NameInUse(View(), spec.containerName) {
        return Err(Failed("conflict: name in use"));
      }
      if f.containerCreate.Some? {
        return Err(Failed(f.containerCreate.value));
      }
      containers := containers[f.newContainer := Container(spec.containerName, spec.hostPort, spec.volumeName, false)];
      issued := issued + {f.newContainer};
      return Ok(f.newContainer);
    }

    method StartServer(id: string, o: Outcome) returns (error: Option<DockerError>)
      modifies this`containers
      ensures (View(), error) == ContainerStart(old(View()), id, o)
    {
      if id !in containers {
        return Missing(o);
      }
      if !containers[id].running && PortBound(View(), containers[id].port) {
        return Some(Failed("port is already allocated"));
      }
      if !o.Refused? {
        containers := containers[id := containers[id].(running := true)];
      }
      return ErrorOf(o);
    }

    method StopServer(id: string, f: Faults) returns (error: Option<DockerError>)
      modifies this`containers
      ensures (View(), error) == ContainerStop(old(View()), id, f.stop)
    {
      if id !in containers {
        return Missing(f.stop);
      }
      if !f.stop.Refused? {
        containers := containers[id := containers[id].(running := false)];
      }
      return ErrorOf(f.stop);
    }

    method RemoveServer(id: string, volume: string, removeVolume: bool, f: Faults)
      returns (error: Option<DockerError>)
      modifies this`containers, this`volumes
      ensures (View(), error) == Teardown(old(View()), id, volume, removeVolume, f)
    {
      if id in containers && !f.remove.Refused? {
        containers := containers - {id};
      }
      if !f.remove.Done? {
        return Some(Failed(f.remove.text));
      }
      if removeVolume {
        if volume in volumes && VolumeInUse(View(), volume) {
          return Some(Failed("volume is in use"));
        }
        if volume in volumes && !f.volumeRemove.Refused? {
          volumes := volumes - {volume};
        }
        if !f.volumeRemove.Done? {
          return Some(Failed(f.volumeRemove.text));
        }
      }
      return None;
    }
  }
}
