/** The invariant that ties Docker to the registry, kept by every request and every outside event. */
module Invariant {
  import opened Text
  import opened Models
  import opened Registries
  import opened DockerHosts
  import opened Ports
  import opened Lifecycle

  /** Container `c` is exactly what record `s` says it is. */
  ghost predicate Backs(servers: map<string, Server>, h: Host, s: string, c: string)
    requires c in h.containers
  {
    && s in servers
    && servers[s].containerID == c
    && h.containers[c].name == ContainerName(s)
    && h.containers[c].volume == VolumeName(s)
    && h.containers[c].port == servers[s].port
  }

  ghost predicate Backed(servers: map<string, Server>, h: Host, c: string)
    requires c in h.containers
  {
    exists s :: Backs(servers, h, s, c)
  }

  /** What a record looks like between requests. */
  ghost predicate Resting(srv: Server) {
    && srv.status in {Stopped, Starting, Error}
    && (srv.containerID == "" ==> srv.status == Error)
    && (srv.message != "" <==> srv.status == Error)
  }

  /** Container IDs come from the engine, and no two records carry the same one. */
  ghost predicate IDsSound(servers: map<string, Server>, h: Host) {
    && h.containers.Keys <= h.issued && "" !in h.issued
    && (forall s | s in servers :: servers[s].containerID in h.issued + {""})
    && (forall s, t | s in servers && t in servers && servers[s].containerID == servers[t].containerID != "" :: s == t)
  }

  ghost predicate AllBacked(servers: map<string, Server>, h: Host) {
    forall c | c in h.containers :: Backed(servers, h, c) && h.containers[c].volume in h.volumes
  }

  ghost predicate HostSound(servers: map<string, Server>, h: Host) {
    IDsSound(servers, h) && AllBacked(servers, h)
  }

  ghost predicate RowsResting(servers: map<string, Server>) {
    forall s | s in servers :: Resting(servers[s])
  }

  ghost predicate SomeAdmin(users: map<string, User>) {
    users != map[] ==> Admins(users) != {}
  }

  /** Everything but the record status, which a request may leave unsettled while it works. */
  ghost predicate Core(w: World) {
    && Consistent(w.reg)
    && w.reg.servers.Keys + w.reg.users.Keys <= w.minted
    && HostSound(w.reg.servers, w.host)
    && SomeAdmin(w.reg.users)
  }

  ghost predicate Inv(w: World) {
    Core(w) && RowsResting(w.reg.servers)
  }

  /** UUIDs and container IDs are never minted twice. */
  ghost predicate Fresh(w: World, e: Event) {
    match e
    case CreateEvent(_, _, id, _, f) => id !in w.minted && FreshContainer(w, f)
    case StartEvent(_, _, f) => FreshContainer(w, f)
    case SeedEvent(id, _, _) => id !in w.minted
    case RegisterEvent(id, _, _) => id !in w.minted
    case NewUserEvent(_, id, _, _, _) => id !in w.minted
    case _ => true
  }

  ghost predicate FreshContainer(w: World, f: Faults) {
    f.newContainer !in w.host.issued && f.newContainer != ""
  }

  // --- what the invariant means ---

  /** Each container belongs to exactly one record, the only one that carries its ID; the record's derived names
      and its port are the container's. */
  lemma OneRecordPerContainer(w: World, c: string) returns (s: string)
    requires Core(w) && c in w.host.containers
    ensures Backs(w.reg.servers, w.host, s, c)
    ensures forall t | t in w.reg.servers ::
              w.reg.servers[t].containerID == c || ContainerName(t) == w.host.containers[c].name
              || VolumeName(t) == w.host.containers[c].volume || w.reg.servers[t].port == w.host.containers[c].port
              ==> t == s
  {
    assert Backed(w.reg.servers, w.host, c);
    s :| Backs(w.reg.servers, w.host, s, c);
    forall t { NamesAreInjective(s, t); }
  }

  /** No two containers are published on the same host port, share a volume, or share a name. */
  lemma ContainersAreDisjoint(w: World, c: string, d: string)
    requires Core(w) && c in w.host.containers && d in w.host.containers && c != d
    ensures w.host.containers[c].port != w.host.containers[d].port
    ensures w.host.containers[c].volume != w.host.containers[d].volume
    ensures w.host.containers[c].name != w.host.containers[d].name
  {
    assert Backed(w.reg.servers, w.host, c) && Backed(w.reg.servers, w.host, d);
    var s :| Backs(w.reg.servers, w.host, s, c);
    var t :| Backs(w.reg.servers, w.host, t, d);
    NamesAreInjective(s, t);
  }

  /** The allocator never hands out a port that some container holds. */
  lemma AllocatedPortIsUnheld(cfg: Config, w: World, busy: set<int>, c: string)
    requires Inv(w) && c in w.host.containers
    ensures w.host.containers[c].port in ClaimedPorts(w.reg.servers)
    ensures LowestFree(cfg.portStart, cfg.portEnd, ClaimedPorts(w.reg.servers), busy)
            != Some(w.host.containers[c].port)
  {
    assert Backed(w.reg.servers, w.host, c);
    var s :| Backs(w.reg.servers, w.host, s, c);
    assert w.reg.servers[s].port in ClaimedPorts(w.reg.servers);
  }

  // --- host-level steps ---

  /** A record without a live container never meets a name conflict: provisioning fails only when Docker does. */
  lemma NoNameConflict(w: World, s: string)
    requires Inv(w)
    requires s in w.reg.servers ==> w.reg.servers[s].containerID !in w.host.containers
    ensures !NameInUse(w.host, ContainerName(s))
  {
    forall c | c in w.host.containers ensures w.host.containers[c].name != ContainerName(s) {
      assert Backed(w.reg.servers, w.host, c);
      var t :| Backs(w.reg.servers, w.host, t, c);
      NamesAreInjective(s, t);
    }
  }

  /** A container of one record is never refused its port by the container of another. */
  lemma NoPortConflict(w: World, c: string)
    requires Core(w) && c in w.host.containers && !w.host.containers[c].running
    ensures !PortBound(w.host, w.host.containers[c].port)
  {
    forall d | d in w.host.containers && w.host.containers[d].running
      ensures w.host.containers[d].port != w.host.containers[c].port
    {
      ContainersAreDisjoint(w, c, d);
    }
  }

  /** The host stays sound when containers only vanish or change their running flag and no mounted volume goes. */
  lemma ShrinkingKeepsHostSound(servers: map<string, Server>, h: Host, h': Host)
    requires HostSound(servers, h)
    requires h'.issued == h.issued && h'.containers.Keys <= h.containers.Keys
    requires forall c | c in h'.containers ::
               && h'.containers[c].(running := false) == h.containers[c].(running := false)
               && h'.containers[c].volume in h'.volumes
    ensures HostSound(servers, h')
  {
    forall c | c in h'.containers ensures Backed(servers, h', c) {
      assert Backed(servers, h, c);
      var s :| Backs(servers, h, s, c);
      assert Backs(servers, h', s, c);
    }
  }

  /** Rows may change in every column but the port and the container ID. */
  lemma RowsKeepHostSound(servers: map<string, Server>, servers': map<string, Server>, h: Host)
    requires HostSound(servers, h)
    requires servers'.Keys == servers.Keys
    requires forall s | s in servers ::
               servers'[s].port == servers[s].port && servers'[s].containerID == servers[s].containerID
    ensures HostSound(servers', h)
  {
    forall c | c in h.containers ensures Backed(servers', h, c) {
      assert Backed(servers, h, c);
      var s :| Backs(servers, h, s, c);
      assert Backs(servers', h, s, c);
    }
  }

  /** Once its one unsettled row is settled, and its port and container ID are what they were, a world is sound. */
  lemma RewrittenRowKeepsInv(w: World, row: Server)
    requires Core(w) && row.id in w.reg.servers && Resting(row)
    requires RowsResting(w.reg.servers - {row.id})
    requires var known := w.reg.servers[row.id];
             row.port == known.port && row.containerID == known.containerID && row.ownerID in w.reg.users
    ensures Inv(w.(reg := w.reg.(servers := w.reg.servers[row.id := row])))
  {
    var servers := w.reg.servers[row.id := row];
    RewrittenRowKeepsConsistency(w.reg, row);
    RowsKeepHostSound(w.reg.servers, servers, w.host);
    forall s | s in servers ensures Resting(servers[s]) {
      assert s != row.id ==> (w.reg.servers - {row.id})[s] == servers[s];
    }
  }

  /** Settling the status of the one unsettled record restores the invariant. */
  lemma MarkRestoresInv(w: World, id: string, status: Status, message: string)
    requires Core(w) && id in w.reg.servers
    requires RowsResting(w.reg.servers - {id})
    requires Resting(w.reg.servers[id].(status := status, message := message))
    ensures Inv(Mark(w, id, status, message))
  {
    RewrittenRowKeepsInv(w, w.reg.servers[id].(status := status, message := message));
  }

  /** Adding a container for record `row`, which had none, keeps the host sound. */
  lemma AttachKeepsHostSound(servers: map<string, Server>, h: Host, row: Server, c: string)
    requires HostSound(servers, h)
    requires row.id in servers ==> servers[row.id].containerID !in h.containers
    requires c !in h.issued && c != "" && row.containerID == c
    ensures var spec := SpecFor(row);
            var made := Container(spec.containerName, spec.hostPort, spec.volumeName, false);
            HostSound(servers[row.id := row],
                      WithVolume(h, spec.volumeName).(containers := h.containers[c := made], issued := h.issued + {c}))
  {
    var spec := SpecFor(row);
    var servers' := servers[row.id := row];
    var h' := WithVolume(h, spec.volumeName).(
      containers := h.containers[c := Container(spec.containerName, spec.hostPort, spec.volumeName, false)],
      issued := h.issued + {c});
    forall d | d in h'.containers ensures Backed(servers', h', d) && h'.containers[d].volume in h'.volumes {
      if d == c {
        assert Backs(servers', h', row.id, c);
      } else {
        assert Backed(servers, h, d);
        var s :| Backs(servers, h, s, d);
        assert Backs(servers', h', s, d);
      }
    }
  }

  /** A failed provision at most leaves a volume; the record, unchanged or newly inserted, points at no container. */
  lemma FailedProvisionKeepsHostSound(servers: map<string, Server>, h: Host, row: Server, volume: string)
    requires HostSound(servers, h)
    requires row.id in servers ==> row.containerID == servers[row.id].containerID && row.containerID !in h.containers
    requires row.id !in servers ==> row.containerID == ""
    ensures HostSound(servers[row.id := row], h)
    ensures HostSound(servers[row.id := row], WithVolume(h, volume))
  {
    forall c | c in h.containers ensures Backed(servers[row.id := row], h, c) {
      assert Backed(servers, h, c);
      var s :| Backs(servers, h, s, c);
      assert Backs(servers[row.id := row], h, s, c);
    }
    ShrinkingKeepsHostSound(servers[row.id := row], h, WithVolume(h, volume));
  }

  /** Provisioning for a record without a container keeps the host sound, once the record is brought up to date. */
  lemma ProvisionKeepsHostSound(servers: map<string, Server>, h: Host, srv: Server, row: Server, f: Faults)
    requires HostSound(servers, h)
    requires srv.id in servers ==> srv.containerID == servers[srv.id].containerID && srv.containerID !in h.containers
    requires srv.id !in servers ==> srv.containerID == ""
    requires f.newContainer !in h.issued && f.newContainer != ""
    requires row.id == srv.id && row.port == srv.port
    requires row.containerID == match Provision(h, SpecFor(srv), f).1
                                case Ok(c) => c
                                case Err(_) => srv.containerID
    ensures HostSound(servers[srv.id := row], Provision(h, SpecFor(srv), f).0)
  {
    if Provision(h, SpecFor(srv), f).1.Ok? {
      AttachKeepsHostSound(servers, h, row, f.newContainer);
    } else {
      FailedProvisionKeepsHostSound(servers, h, row, VolumeName(srv.id));
    }
  }

  // --- requests on servers ---

  lemma InsertedRowKeepsInv(w: World, row: Server, h: Host)
    requires Inv(w) && row.id !in w.reg.servers && row.ownerID in w.reg.users
    requires row.port !in ClaimedPorts(w.reg.servers) && Resting(row)
    requires HostSound(w.reg.servers[row.id := row], h)
    ensures Inv(World(w.reg.(servers := w.reg.servers[row.id := row]), h, w.minted + {row.id}))
  {
    InsertServerKeepsConsistency(w.reg, row);
  }

  lemma InstallKeepsInv(w: World, row: Server, f: Faults)
    requires Inv(w) && row.id !in w.minted && FreshContainer(w, f)
    requires row.status == Creating && row.message == "" && row.containerID == ""
    ensures Inv(Install(w, row, f).0)
  {
    if InsertServer(w.reg, row).Ok? {
      var (w', _) := Install(w, row, f);
      var row' := w'.reg.servers[row.id];
      ProvisionKeepsHostSound(w.reg.servers, w.host, row, row', f);
      InsertedRowKeepsInv(w, row', w'.host);
    }
  }

  lemma CreateKeepsInv(cfg: Config, w: World, actor: string, input: Input, id: string, busy: set<int>, f: Faults)
    requires Inv(w) && id !in w.minted && FreshContainer(w, f)
    ensures Inv(Create(cfg, w, actor, input, id, busy, f).0)
  {
    var v := Normalised(input);
    match Admit(cfg, w.reg, actor, v, busy)
    case Err(_) =>
    case Ok(port) => InstallKeepsInv(w, RowFor(cfg, v, id, actor, port), f);
  }

  lemma OthersRest(servers: map<string, Server>, id: string)
    requires RowsResting(servers)
    ensures RowsResting(servers - {id})
  {
  }

  /** A rebuild touches one row, and only its container ID. */
  lemma RebuildChangesOneRow(w: World, srv: Server, f: Faults)
    requires srv.id in w.reg.servers && w.reg.servers[srv.id] == srv
    ensures var (h, made) := Provision(w.host, SpecFor(srv), f);
            var row := srv.(containerID := if made.Ok? then made.value else srv.containerID);
            Rebuild(w, srv, f) == (World(w.reg.(servers := w.reg.servers[srv.id := row]), h, w.minted), made)
  {
    assert w.reg.servers[srv.id := srv] == w.reg.servers;
  }

  lemma RebuiltRowKeepsCore(w: World, row: Server, h: Host)
    requires Inv(w) && row.id in w.reg.servers
    requires row.port == w.reg.servers[row.id].port && row.ownerID == w.reg.servers[row.id].ownerID
    requires HostSound(w.reg.servers[row.id := row], h)
    ensures Core(World(w.reg.(servers := w.reg.servers[row.id := row]), h, w.minted))
    ensures RowsResting(w.reg.servers[row.id := row] - {row.id})
  {
    RewrittenRowKeepsConsistency(w.reg, row);
    OthersRest(w.reg.servers, row.id);
    assert w.reg.servers[row.id := row] - {row.id} == w.reg.servers - {row.id};
  }

  lemma RebuildKeepsCore(w: World, srv: Server, f: Faults)
    requires Inv(w) && srv.id in w.reg.servers && w.reg.servers[srv.id] == srv
    requires srv.containerID !in w.host.containers && FreshContainer(w, f)
    ensures var (w', made) := Rebuild(w, srv, f);
            && Core(w')
            && srv.id in w'.reg.servers && RowsResting(w'.reg.servers - {srv.id})
            && (made.Ok? ==> made.value in w'.host.containers && w'.reg.servers[srv.id].containerID == made.value)
  {
    var (h, made) := Provision(w.host, SpecFor(srv), f);
    var row := srv.(containerID := if made.Ok? then made.value else srv.containerID);
    RebuildChangesOneRow(w, srv, f);
    ProvisionKeepsHostSound(w.reg.servers, w.host, srv, row, f);
    RebuiltRowKeepsCore(w, row, h);
  }

  lemma LaunchKeepsInv(w: World, id: string, c: string, o: Outcome)
    requires Core(w) && id in w.reg.servers && RowsResting(w.reg.servers - {id})
    requires c != "" && w.reg.servers[id].containerID == c
    ensures Inv(Launch(w, id, c, o).0)
  {
    var (h, error) := ContainerStart(w.host, c, o);
    if c in w.host.containers { RunningKeepsHostSound(w.reg.servers, w.host, c, true); }
    match error
    case None => MarkRestoresInv(w.(host := h), id, Starting, "");
    case Some(e) => MarkRestoresInv(w.(host := h), id, Error, ErrorText(e));
  }

  lemma StartKeepsInv(w: World, actor: string, id: string, f: Faults)
    requires Inv(w) && FreshContainer(w, f)
    ensures Inv(Start(w, actor, id, f).0)
  {
    var found := Lookup(w.reg, actor, id);
    if found.Ok? {
      var srv := found.value;
      OthersRest(w.reg.servers, id);
      if Settled(w.host, srv, f) {
        LaunchKeepsInv(w, id, srv.containerID, f.start);
      } else {
        RebuildKeepsCore(w, srv, f);
        var (built, made) := Rebuild(w, srv, f);
        match made
        case Err(e) => MarkRestoresInv(built, id, Error, ErrorText(e));
        case Ok(c) => LaunchKeepsInv(built, id, c, AfterRebuild(srv, f));
      }
    }
  }

  lemma StopKeepsInv(w: World, actor: string, id: string, f: Faults)
    requires Inv(w)
    ensures Inv(Stop(w, actor, id, f).0)
  {
    var found := Lookup(w.reg, actor, id);
    if found.Ok? && found.value.containerID != "" {
      var (h, error) := ContainerStop(w.host, found.value.containerID, f.stop);
      if found.value.containerID in w.host.containers {
        RunningKeepsHostSound(w.reg.servers, w.host, found.value.containerID, false);
      }
      if error.Some? && error.value.Failed? {
        MarkRestoresInv(w.(host := h), id, Error, ErrorText(error.value));
      } else {
        MarkRestoresInv(w.(host := h), id, Stopped, "");
      }
    }
  }

  lemma RowChangeKeepsInv(w: World, row: Server)
    requires Inv(w) && row.id in w.reg.servers && Resting(row)
    requires var known := w.reg.servers[row.id];
             row.port == known.port && row.containerID == known.containerID && row.ownerID == known.ownerID
    ensures Inv(w.(reg := w.reg.(servers := w.reg.servers[row.id := row])))
  {
    OthersRest(w.reg.servers, row.id);
    RewrittenRowKeepsInv(w, row);
  }

  lemma RenameKeepsInv(w: World, actor: string, id: string, name: Option<string>)
    requires Inv(w)
    ensures Inv(Rename(w, actor, id, name).0)
  {
    if Rename(w, actor, id, name).0 != w {
      RowChangeKeepsInv(w, w.reg.servers[id].(name := TrimSpace(name.value)));
    }
  }

  lemma RemovalKeepsHostSound(servers: map<string, Server>, h: Host, c: string, o: Outcome)
    requires HostSound(servers, h)
    ensures HostSound(servers, ContainerRemove(h, c, o).0)
  {
    ShrinkingKeepsHostSound(servers, h, ContainerRemove(h, c, o).0);
  }

  lemma VolumeRemovalKeepsHostSound(servers: map<string, Server>, h: Host, volume: string, o: Outcome)
    requires HostSound(servers, h)
    ensures HostSound(servers, VolumeRemove(h, volume, o).0)
  {
    var h' := VolumeRemove(h, volume, o).0;
    if h' != h {
      forall c | c in h'.containers ensures h'.containers[c].volume in h'.volumes {
        assert Backed(servers, h, c);
        assert h.containers[c].volume != volume;
      }
      ShrinkingKeepsHostSound(servers, h, h');
    }
  }

  lemma RunningKeepsHostSound(servers: map<string, Server>, h: Host, c: string, running: bool)
    requires HostSound(servers, h) && c in h.containers
    ensures HostSound(servers, SetRunning(h, c, running))
  {
    ShrinkingKeepsHostSound(servers, h, SetRunning(h, c, running));
  }

  /** Whatever fails on the way, a teardown leaves every remaining container with its record and its volume. */
  lemma TeardownKeepsHostSound(servers: map<string, Server>, h: Host, c: string, volume: string, data: bool, f: Faults)
    requires HostSound(servers, h)
    ensures HostSound(servers, Teardown(h, c, volume, data, f).0)
    ensures Teardown(h, c, volume, data, f).1 == None ==> c !in Teardown(h, c, volume, data, f).0.containers
  {
    RemovalKeepsHostSound(servers, h, c, f.remove);
    VolumeRemovalKeepsHostSound(servers, ContainerRemove(h, c, f.remove).0, volume, f.volumeRemove);
  }

  lemma DroppedRowKeepsHostSound(servers: map<string, Server>, h: Host, id: string)
    requires HostSound(servers, h)
    requires id in servers && servers[id].containerID !in h.containers
    ensures HostSound(servers - {id}, h)
  {
    forall c | c in h.containers ensures Backed(servers - {id}, h, c) {
      assert Backed(servers, h, c);
      var s :| Backs(servers, h, s, c);
      assert Backs(servers - {id}, h, s, c);
    }
  }

  lemma DeleteKeepsInv(w: World, actor: string, id: string, deleteData: bool, f: Faults)
    requires Inv(w)
    ensures Inv(Delete(w, actor, id, deleteData, f).0)
  {
    var found := Lookup(w.reg, actor, id);
    if found.Ok? {
      var srv := found.value;
      var (h, error) :=
        if srv.containerID == "" then (w.host, None)
        else Teardown(w.host, srv.containerID, VolumeName(srv.id), deleteData, f);
      if srv.containerID != "" {
        TeardownKeepsHostSound(w.reg.servers, w.host, srv.containerID, VolumeName(srv.id), deleteData, f);
      }
      match error
      case Some(e) => MarkRestoresInv(w.(host := h), id, Error, ErrorText(e));
      case None => DroppedRowKeepsHostSound(w.reg.servers, h, id);
    }
  }

  // --- requests on accounts ---

  /** Changing accounts never unsettles the host side. */
  lemma NewAccountKeepsInv(w: World, u: User)
    requires Inv(w) && u.id !in w.minted
    requires w.reg.users == map[] ==> u.isAdmin
    requires InsertUser(w.reg, u).Ok?
    ensures Inv(World(InsertUser(w.reg, u).value, w.host, w.minted + {u.id}))
  {
    var users' := w.reg.users[u.id := u];
    InsertUserKeepsConsistency(w.reg, u);
    if w.reg.users != map[] {
      var a :| a in Admins(w.reg.users);
      assert a in Admins(users');
    } else {
      assert u.id in Admins(users');
    }
  }

  lemma AddAccountKeepsInv(w: World, id: string, username: string, password: Password, isAdmin: bool)
    requires Inv(w) && id !in w.minted && (w.reg.users == map[] ==> isAdmin)
    ensures Inv(AddAccount(w, id, username, password, isAdmin).0)
  {
    if AddAccount(w, id, username, password, isAdmin).1 == CREATED {
      NewAccountKeepsInv(w, User(id, TrimSpace(username), password.hash.value, isAdmin));
    }
  }

  lemma SeedKeepsInv(w: World, id: string, username: string, password: Password)
    requires Inv(w) && id !in w.minted
    ensures Inv(Seed(w, id, username, password))
  {
    if Seed(w, id, username, password) != w {
      var u := User(id, username, password.hash.value, true);
      assert w.reg.users[id := u] == map[id := u];
      NewAccountKeepsInv(w, u);
    }
  }

  /** Servers may change hands, and accounts come and go, as long as the tables stay consistent. */
  lemma NewOwnersKeepInv(w: World, r: Registry)
    requires Inv(w) && Consistent(r) && SomeAdmin(r.users)
    requires r.users.Keys <= w.minted && r.servers.Keys == w.reg.servers.Keys
    requires forall s | s in r.servers :: r.servers[s].(ownerID := w.reg.servers[s].ownerID) == w.reg.servers[s]
    ensures Inv(w.(reg := r))
  {
    RowsKeepHostSound(w.reg.servers, r.servers, w.host);
    forall s | s in r.servers ensures Resting(r.servers[s]) {
      assert Resting(w.reg.servers[s]);
    }
  }

  /** Accounts may change while the rows stay. */
  lemma ChangedAccountsKeepInv(w: World, users: map<string, User>)
    requires Inv(w) && Consistent(w.reg.(users := users)) && SomeAdmin(users) && users.Keys <= w.minted
    ensures Inv(w.(reg := w.reg.(users := users)))
  {
  }

  lemma RoleChangeKeepsInv(w: World, actor: string, target: string, isAdmin: bool)
    requires Inv(w) && actor in Admins(w.reg.users) && target in w.reg.users && (target == actor ==> isAdmin)
    ensures Inv(w.(reg := SetUserAdmin(w.reg, target, isAdmin).value))
  {
    var users := SetUserAdmin(w.reg, target, isAdmin).value.users;
    SetUserAdminKeepsConsistency(w.reg, target, isAdmin);
    assert actor in Admins(users);
    ChangedAccountsKeepInv(w, users);
  }

  lemma SetRoleKeepsInv(w: World, actor: string, target: string, isAdmin: bool)
    requires Inv(w)
    ensures Inv(SetRole(w, actor, target, isAdmin).0)
  {
    if SetRole(w, actor, target, isAdmin).0 != w {
      assert actor in Admins(w.reg.users);
      RoleChangeKeepsInv(w, actor, target, isAdmin);
    }
  }

  lemma ResetPasswordKeepsInv(w: World, target: string, password: Password)
    requires Inv(w) && target in w.reg.users
    ensures Inv(ResetPassword(w, target, password).0)
  {
    var (w', code) := ResetPassword(w, target, password);
    if code == OK {
      SetUserPasswordKeepsConsistency(w.reg, target, password.hash.value);
      assert Admins(w'.reg.users) == Admins(w.reg.users);
      ChangedAccountsKeepInv(w, w'.reg.users);
    }
  }

  lemma UpdateUserKeepsInv(
    w: World, actor: string, target: string, isAdmin: Option<bool>, password: Option<Password>)
    requires Inv(w)
    ensures Inv(UpdateUser(w, actor, target, isAdmin, password).0)
  {
    if RequireAdmin(w.reg, actor) == None && target in w.reg.users {
      var (w', code) := if isAdmin.None? then (w, OK) else SetRole(w, actor, target, isAdmin.value);
      if isAdmin.Some? { SetRoleKeepsInv(w, actor, target, isAdmin.value); }
      if code == OK && password.Some? { ResetPasswordKeepsInv(w', target, password.value); }
    }
  }

  lemma TransferKeepsInv(w: World, actor: string, target: string)
    requires Inv(w) && actor in Admins(w.reg.users) && target in w.reg.users && target != actor
    ensures Inv(w.(reg := TransferAndDelete(w.reg, target, actor)))
  {
    var r := TransferAndDelete(w.reg, target, actor);
    assert Consistent(r) by {
      TransferAndDeleteKeepsConsistency(w.reg, target, actor);
    }
    ReassignmentShieldsRows(w.reg, target, actor);
    assert SomeAdmin(r.users) by {
      assert actor in Admins(r.users);
    }
    NewOwnersKeepInv(w, r);
  }

  lemma RemoveUserKeepsInv(w: World, actor: string, target: string, reassign: bool)
    requires Inv(w)
    ensures Inv(RemoveUser(w, actor, target, reassign).0)
  {
    if RemoveUser(w, actor, target, reassign).1 == NO_CONTENT {
      assert actor in Admins(w.reg.users);
      TransferKeepsInv(w, actor, target);
    }
  }

  // --- runs ---

  lemma OutsideKeepsHostSound(servers: map<string, Server>, h: Host, e: Event)
    requires HostSound(servers, h)
    ensures HostSound(servers, Outside(h, e))
  {
    match e {
      case OutsideRemove(c) => RemovalKeepsHostSound(servers, h, c, Done);
      case OutsideExit(c) =>
        if c in h.containers { RunningKeepsHostSound(servers, h, c, false); }
      case OutsideRestart(c) =>
        if c in h.containers { RunningKeepsHostSound(servers, h, c, true); }
      case Play(c, chunk) => SavingKeepsHostSound(servers, h, c, chunk);
      case _ =>
    }
  }

  lemma SavingKeepsHostSound(servers: map<string, Server>, h: Host, c: string, chunk: string)
    requires HostSound(servers, h)
    ensures HostSound(servers, Saved(h, c, chunk))
  {
    ShrinkingKeepsHostSound(servers, h, Saved(h, c, chunk));
  }

  /** Every request, whatever Docker does to it, and every outside event keeps the invariant. */
  lemma ServeKeepsInv(cfg: Config, w: World, e: Event)
    requires Inv(w) && Fresh(w, e)
    ensures Inv(Serve(cfg, w, e).0)
  {
    match e
    case CreateEvent(actor, input, id, busy, f) => CreateKeepsInv(cfg, w, actor, input, id, busy, f);
    case RenameEvent(actor, id, name) => RenameKeepsInv(w, actor, id, name);
    case StartEvent(actor, id, f) => StartKeepsInv(w, actor, id, f);
    case StopEvent(actor, id, f) => StopKeepsInv(w, actor, id, f);
    case DeleteEvent(actor, id, deleteData, f) => DeleteKeepsInv(w, actor, id, deleteData, f);
    case SeedEvent(id, username, password) => SeedKeepsInv(w, id, username, password);
    case RegisterEvent(id, username, password) => AddAccountKeepsInv(w, id, username, password, w.reg.users == map[]);
    case NewUserEvent(actor, id, username, password, isAdmin) =>
      if RequireAdmin(w.reg, actor) == None { AddAccountKeepsInv(w, id, username, password, isAdmin); }
    case UpdateUserEvent(actor, target, isAdmin, password) => UpdateUserKeepsInv(w, actor, target, isAdmin, password);
    case RemoveUserEvent(actor, target, reassign) => RemoveUserKeepsInv(w, actor, target, reassign);
    case _ => OutsideKeepsHostSound(w.reg.servers, w.host, e);
  }

  /** A run: each event is served in the state the previous one left. */
  ghost predicate FreshRun(cfg: Config, w: World, run: seq<Event>)
    requires Inv(w)
    decreases |run|
  {
    run == [] || (Fresh(w, run[0]) && (ServeKeepsInv(cfg, w, run[0]); FreshRun(cfg, Serve(cfg, w, run[0]).0, run[1..])))
  }

  ghost function After(cfg: Config, w: World, run: seq<Event>): (w': World)
    requires Inv(w) && FreshRun(cfg, w, run)
    decreases |run|
  {
    if run == [] then w else ServeKeepsInv(cfg, w, run[0]); After(cfg, Serve(cfg, w, run[0]).0, run[1..])
  }

  /** Safety over every run from any sound state. */
  lemma {:induction false} RunKeepsInv(cfg: Config, w: World, run: seq<Event>)
    requires Inv(w) && FreshRun(cfg, w, run)
    ensures Inv(After(cfg, w, run))
    decreases |run|
  {
    if run != [] {
      ServeKeepsInv(cfg, w, run[0]);
      RunKeepsInv(cfg, Serve(cfg, w, run[0]).0, run[1..]);
    }
  }

  // --- from the empty installation ---

  const EMPTY := World(Registry(map[], map[]), Host(map[], map[], {}), {})

  lemma EmptyIsSound()
    ensures Inv(EMPTY)
  {
  }

  /** A history of the platform, from its installation on. */
  ghost predicate History(cfg: Config, run: seq<Event>) {
    EmptyIsSound(); FreshRun(cfg, EMPTY, run)
  }

  /** The world a history leads to. */
  ghost function Reached(cfg: Config, run: seq<Event>): World
    requires History(cfg, run)
  {
    EmptyIsSound(); After(cfg, EMPTY, run)
  }

  /** Every reachable world is sound: whatever was requested, whatever Docker did, whatever happened outside. */
  lemma ReachedIsSound(cfg: Config, run: seq<Event>)
    requires History(cfg, run)
    ensures Inv(Reached(cfg, run))
  {
    EmptyIsSound();
    RunKeepsInv(cfg, EMPTY, run);
  }
}
