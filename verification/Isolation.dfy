/** Requests about one server never disturb another, whatever Docker does to them. */
module Isolation {
  import opened Text
  import opened Models
  import opened Registries
  import opened DockerHosts
  import opened Lifecycle
  import opened Invariant

  ghost predicate RowsUntouched(servers: map<string, Server>, servers': map<string, Server>, id: string) {
    && (forall s | s != id :: s in servers <==> s in servers')
    && (forall s | s in servers && s != id :: servers'[s] == servers[s])
  }

  /** Containers and volumes that do not carry the derived names of `id` are as they were. */
  ghost predicate HostUntouched(h: Host, h': Host, id: string) {
    && (forall c | c in h.containers && h.containers[c].name != ContainerName(id) ::
          c in h'.containers && h'.containers[c] == h.containers[c])
    && (forall c | c in h'.containers && h'.containers[c].name != ContainerName(id) ::
          c in h.containers && h'.containers[c] == h.containers[c])
    && (forall v | v != VolumeName(id) :: v in h.volumes <==> v in h'.volumes)
    && (forall v | v in h.volumes && v != VolumeName(id) :: h'.volumes[v] == h.volumes[v])
  }

  ghost predicate Untouched(w: World, w': World, id: string) {
    RowsUntouched(w.reg.servers, w'.reg.servers, id) && HostUntouched(w.host, w'.host, id) && w'.reg.users == w.reg.users
  }

  /** Container `c`, if it exists, is named after server `id`. */
  predicate Named(h: Host, c: string, id: string) {
    c in h.containers ==> h.containers[c].name == ContainerName(id)
  }

  lemma ProvisionStaysHome(h: Host, spec: Spec, f: Faults, id: string)
    requires spec.containerName == ContainerName(id) && spec.volumeName == VolumeName(id)
    requires f.newContainer !in h.containers
    ensures HostUntouched(h, Provision(h, spec, f).0, id)
    ensures Provision(h, spec, f).1.Ok? ==> Named(Provision(h, spec, f).0, f.newContainer, id)
  {
  }

  lemma RunningStaysHome(h: Host, c: string, o: Outcome, id: string)
    requires Named(h, c, id)
    ensures HostUntouched(h, ContainerStart(h, c, o).0, id)
    ensures HostUntouched(h, ContainerStop(h, c, o).0, id)
  {
  }

  lemma TeardownStaysHome(h: Host, c: string, deleteData: bool, f: Faults, id: string)
    requires Named(h, c, id)
    ensures HostUntouched(h, Teardown(h, c, VolumeName(id), deleteData, f).0, id)
  {
  }

  lemma UntouchedIsTransitive(h: Host, h1: Host, h2: Host, id: string)
    requires HostUntouched(h, h1, id) && HostUntouched(h1, h2, id)
    ensures HostUntouched(h, h2, id)
  {
  }

  lemma InstallStaysHome(w: World, row: Server, f: Faults)
    requires f.newContainer !in w.host.containers
    ensures Untouched(w, Install(w, row, f).0, row.id)
  {
    ProvisionStaysHome(w.host, SpecFor(row), f, row.id);
  }

  lemma LaunchStaysHome(w: World, id: string, c: string, o: Outcome)
    requires id in w.reg.servers && Named(w.host, c, id)
    ensures Untouched(w, Launch(w, id, c, o).0, id)
  {
    RunningStaysHome(w.host, c, o, id);
  }

  lemma StartStaysHome(w: World, actor: string, id: string, f: Faults)
    requires Keyed(w.reg) && f.newContainer !in w.host.containers
    requires id in w.reg.servers ==> Named(w.host, w.reg.servers[id].containerID, id)
    ensures Untouched(w, Start(w, actor, id, f).0, id)
  {
    var found := Lookup(w.reg, actor, id);
    if found.Ok? {
      var srv := found.value;
      if Settled(w.host, srv, f) {
        LaunchStaysHome(w, id, srv.containerID, f.start);
      } else {
        var (built, made) := Rebuild(w, srv, f);
        ProvisionStaysHome(w.host, SpecFor(srv), f, id);
        if made.Ok? {
          LaunchStaysHome(built, id, made.value, AfterRebuild(srv, f));
          UntouchedIsTransitive(w.host, built.host, Launch(built, id, made.value, AfterRebuild(srv, f)).0.host, id);
        }
      }
    }
  }

  lemma StopStaysHome(w: World, actor: string, id: string, f: Faults)
    requires id in w.reg.servers ==> Named(w.host, w.reg.servers[id].containerID, id)
    ensures Untouched(w, Stop(w, actor, id, f).0, id)
  {
    if id in w.reg.servers {
      RunningStaysHome(w.host, w.reg.servers[id].containerID, f.stop, id);
    }
  }

  lemma DeleteStaysHome(w: World, actor: string, id: string, deleteData: bool, f: Faults)
    requires Keyed(w.reg)
    requires id in w.reg.servers ==> Named(w.host, w.reg.servers[id].containerID, id)
    ensures Untouched(w, Delete(w, actor, id, deleteData, f).0, id)
  {
    if id in w.reg.servers {
      TeardownStaysHome(w.host, w.reg.servers[id].containerID, deleteData, f, id);
    }
  }

  /** The server an event is about, if it is about one. */
  function Subject(e: Event): Option<string> {
    match e
    case CreateEvent(_, _, id, _, _) => Some(id)
    case RenameEvent(_, id, _) => Some(id)
    case StartEvent(_, id, _) => Some(id)
    case StopEvent(_, id, _) => Some(id)
    case DeleteEvent(_, id, _, _) => Some(id)
    case _ => None
  }

  /** The container a record points at, if it exists, carries that record's name: here the invariant is needed. */
  lemma OwnContainerIsNamed(w: World, id: string)
    requires Inv(w) && id in w.reg.servers
    ensures Named(w.host, w.reg.servers[id].containerID, id)
  {
    if w.reg.servers[id].containerID in w.host.containers {
      var s := OneRecordPerContainer(w, w.reg.servers[id].containerID);
    }
  }

  lemma CreateStaysHome(cfg: Config, w: World, actor: string, input: Input, id: string, busy: set<int>, f: Faults)
    requires f.newContainer !in w.host.containers
    ensures Untouched(w, Create(cfg, w, actor, input, id, busy, f).0, id)
  {
    var admitted := Admit(cfg, w.reg, actor, Normalised(input), busy);
    if admitted.Ok? {
      InstallStaysHome(w, RowFor(cfg, Normalised(input), id, actor, admitted.value), f);
    }
  }

  ghost predicate NewToHost(h: Host, e: Event) {
    match e
    case CreateEvent(_, _, _, _, f) => f.newContainer !in h.containers
    case StartEvent(_, _, f) => f.newContainer !in h.containers
    case _ => true
  }

  lemma EventStaysHome(cfg: Config, w: World, e: Event, id: string)
    requires Keyed(w.reg) && NewToHost(w.host, e) && Subject(e) == Some(id)
    requires id in w.reg.servers ==> Named(w.host, w.reg.servers[id].containerID, id)
    ensures Untouched(w, Serve(cfg, w, e).0, id)
  {
    match e
    case CreateEvent(actor, input, _, busy, f) => CreateStaysHome(cfg, w, actor, input, id, busy, f);
    case StartEvent(actor, _, f) => StartStaysHome(w, actor, id, f);
    case StopEvent(actor, _, f) => StopStaysHome(w, actor, id, f);
    case DeleteEvent(actor, _, deleteData, f) => DeleteStaysHome(w, actor, id, deleteData, f);
    case RenameEvent(_, _, _) =>
  }

  /** No other server notices a request: its record, its container and its volume, with all its content, are as before. */
  lemma ServersAreIsolated(cfg: Config, w: World, e: Event)
    requires Inv(w) && Fresh(w, e) && Subject(e).Some?
    ensures Untouched(w, Serve(cfg, w, e).0, Subject(e).value)
  {
    var id := Subject(e).value;
    if id in w.reg.servers {
      OwnContainerIsNamed(w, id);
    }
    EventStaysHome(cfg, w, e, id);
  }
}
