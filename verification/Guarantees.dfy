/** What the lifecycle invariant buys: servers heal, deletes can be retried, accounts leave nothing behind. */
module Guarantees {
  import opened Text
  import opened Models
  import opened Registries
  import opened DockerHosts
  import opened Ports
  import opened Credential
  import opened Lifecycle
  import opened Invariant

  // --- creating ---

  /** An admitted create always leaves its record, owned by its caller, on the lowest port nobody had claimed. The reply
      says which of the two happened: the record has its own stopped container, or it is in error and says why. */
  lemma CreateLeavesRecord(cfg: Config, w: World, actor: string, input: Input, id: string, busy: set<int>, f: Faults)
    requires Inv(w) && id !in w.minted && FreshContainer(w, f)
    requires Admit(cfg, w.reg, actor, Normalised(input), busy).Ok?
    ensures var (w', code) := Create(cfg, w, actor, input, id, busy, f);
            && id in w'.reg.servers
            && var row := w'.reg.servers[id];
               && w'.reg.servers == w.reg.servers[id := row]
               && row.ownerID == actor && row.name == TrimSpace(input.name)
               && row.kind == (if input.kind == "" then "VANILLA" else input.kind)
               && row.version == (if TrimSpace(input.version) == "" then "LATEST" else input.version)
               && row.provider == input.provider && row.modpackID == input.modpackID
               && row.memory == (if input.memory == "" then cfg.defaultMemory else input.memory)
               && row.cpuLimit == (if input.cpuLimit == 0.0 then cfg.defaultCPU else input.cpuLimit)
               && Some(row.port) == LowestFree(cfg.portStart, cfg.portEnd, ClaimedPorts(w.reg.servers),
                                               if cfg.probeHost then busy else {})
               && code in {CREATED, SERVER_ERROR}
               && (code == CREATED ==>
                     && row.status == Stopped && row.containerID in w'.host.containers
                     && Backs(w'.reg.servers, w'.host, id, row.containerID)
                     && !w'.host.containers[row.containerID].running)
               && (code == SERVER_ERROR ==>
                     row.status == Error && row.message != "" && row.containerID == ""
                     && w'.host.containers == w.host.containers)
               && (FaultFree(f) ==> code == CREATED)
  {
    var port := Admit(cfg, w.reg, actor, Normalised(input), busy).value;
    InstallLeavesRecord(w, RowFor(cfg, Normalised(input), id, actor, port), f);
  }

  /** Under a free name, Docker's own failures decide; a failed provision makes no container. */
  lemma ProvisionGives(h: Host, spec: Spec, f: Faults)
    requires !NameInUse(h, spec.containerName)
    ensures var (h', made) := Provision(h, spec, f);
            && (FaultFree(f) ==> made.Ok?)
            && (match made
                case Ok(c) =>
                  c == f.newContainer
                  && h'.containers == h.containers[c := Container(spec.containerName, spec.hostPort, spec.volumeName, false)]
                case Err(_) => h'.containers == h.containers)
  {
  }

  lemma InstallLeavesRecord(w: World, row: Server, f: Faults)
    requires Inv(w) && row.id !in w.minted && FreshContainer(w, f)
    requires row.port !in ClaimedPorts(w.reg.servers) && row.ownerID in w.reg.users
    requires row.status == Creating && row.message == "" && row.containerID == ""
    ensures var (w', code) := Install(w, row, f);
            && row.id in w'.reg.servers
            && var row' := w'.reg.servers[row.id];
               && w'.reg.servers == w.reg.servers[row.id := row']
               && row' == row.(status := row'.status, message := row'.message, containerID := row'.containerID)
               && code in {CREATED, SERVER_ERROR}
               && (code == CREATED ==>
                     && row'.status == Stopped && row'.containerID in w'.host.containers
                     && Backs(w'.reg.servers, w'.host, row.id, row'.containerID)
                     && !w'.host.containers[row'.containerID].running)
               && (code == SERVER_ERROR ==>
                     row'.status == Error && row'.message != "" && row'.containerID == ""
                     && w'.host.containers == w.host.containers)
               && (FaultFree(f) ==> code == CREATED)
  {
    NoNameConflict(w, row.id);
    ProvisionGives(w.host, SpecFor(row), f);
  }

  // --- starting ---

  /** A start that Docker does not fail always succeeds, whatever state earlier requests, faults and outside
      removals left: it ends with the record pointing at its own running container, on its own port and volume. */
  lemma StartHeals(w: World, actor: string, id: string, f: Faults)
    requires Inv(w) && FreshContainer(w, f) && FaultFree(f)
    requires Lookup(w.reg, actor, id).Ok?
    ensures var (w', code) := Start(w, actor, id, f);
            && code == OK
            && id in w'.reg.servers
            && var c := w'.reg.servers[id].containerID;
               && c in w'.host.containers && w'.host.containers[c].running
               && Backs(w'.reg.servers, w'.host, id, c)
               && w'.reg.servers[id] == w.reg.servers[id].(containerID := c, status := Starting, message := "")
               && (VolumeName(id) in w.host.volumes ==>
                     VolumeName(id) in w'.host.volumes
                     && w'.host.volumes[VolumeName(id)] == w.host.volumes[VolumeName(id)])
  {
    var srv := w.reg.servers[id];
    if Live(w.host, srv) {
      LaunchSucceeds(w, id, srv.containerID);
    } else {
      RebuildKeepsCore(w, srv, f);
      NoNameConflict(w, id);
      var (built, made) := Rebuild(w, srv, f);
      LaunchSucceeds(built, id, made.value);
    }
  }

  lemma LaunchSucceeds(w: World, id: string, c: string)
    requires Core(w) && id in w.reg.servers && w.reg.servers[id].containerID == c && c in w.host.containers
    ensures var (w', code) := Launch(w, id, c, Done);
            && code == OK && w'.host.volumes == w.host.volumes
            && c in w'.host.containers && w'.host.containers[c].running
            && id in w'.reg.servers
            && w'.reg.servers[id] == w.reg.servers[id].(status := Starting, message := "")
            && Backs(w'.reg.servers, w'.host, id, c)
  {
    var s := OneRecordPerContainer(w, c);
    if !w.host.containers[c].running {
      NoPortConflict(w, c);
    }
  }

  // --- deleting ---

  /** A delete that Docker fails keeps the record, its port and its container ID, so it can be tried again. */
  lemma FailedDeleteKeepsRecord(w: World, actor: string, id: string, deleteData: bool, f: Faults)
    requires Inv(w) && Lookup(w.reg, actor, id).Ok?
    requires Delete(w, actor, id, deleteData, f).1 != NO_CONTENT
    ensures var (w', code) := Delete(w, actor, id, deleteData, f);
            && code == SERVER_ERROR && Inv(w')
            && Lookup(w'.reg, actor, id).Ok?
            && w'.reg.servers.Keys == w.reg.servers.Keys
            && w'.reg.servers[id].port == w.reg.servers[id].port
            && w'.reg.servers[id].containerID == w.reg.servers[id].containerID
            && w'.reg.servers[id].containerID != ""
            && w'.reg.servers[id].status == Error
  {
    DeleteKeepsInv(w, actor, id, deleteData, f);
  }

  /** No container left behind by record `id`. */
  ghost predicate NothingOf(h: Host, id: string) {
    !NameInUse(h, ContainerName(id)) && !VolumeInUse(h, VolumeName(id))
  }

  lemma WithoutItsContainerNothingIsLeft(w: World, id: string, h: Host)
    requires Inv(w) && id in w.reg.servers
    requires h.containers == w.host.containers - {w.reg.servers[id].containerID}
    ensures NothingOf(h, id)
  {
    forall c | c in h.containers
      ensures h.containers[c].name != ContainerName(id) && h.containers[c].volume != VolumeName(id)
    {
      var s := OneRecordPerContainer(w, c);
    }
  }

  lemma UnhinderedTeardown(h: Host, c: string, volume: string, deleteData: bool, f: Faults)
    requires FaultFree(f) && !VolumeInUse(WithoutContainer(h, c), volume)
    ensures Teardown(h, c, volume, deleteData, f)
            == (h.(containers := h.containers - {c}, volumes := if deleteData then h.volumes - {volume} else h.volumes), None)
  {
    assert c !in h.containers ==> h.containers - {c} == h.containers;
    assert volume !in h.volumes ==> h.volumes - {volume} == h.volumes;
  }

  /** A teardown that Docker does not fail: the container goes first, so nothing holds on to its volume. */
  lemma TeardownSucceeds(w: World, id: string, deleteData: bool, f: Faults)
    requires Inv(w) && id in w.reg.servers && FaultFree(f)
    ensures var c := w.reg.servers[id].containerID;
            var (h, error) := Teardown(w.host, c, VolumeName(id), deleteData, f);
            && error == None
            && h.containers == w.host.containers - {c}
            && h.volumes == if deleteData then w.host.volumes - {VolumeName(id)} else w.host.volumes
  {
    var c := w.reg.servers[id].containerID;
    WithoutItsContainerNothingIsLeft(w, id, WithoutContainer(w.host, c));
    UnhinderedTeardown(w.host, c, VolumeName(id), deleteData, f);
  }

  /** One delete that Docker does not fail frees the record, the container and the port. The volume goes exactly
      when that was asked for and the record carries a container ID: a server whose container was never made
      keeps its volume even when its data is to be deleted. */
  lemma DeleteFreesEverything(w: World, actor: string, id: string, deleteData: bool, f: Faults)
    requires Inv(w) && FaultFree(f) && Lookup(w.reg, actor, id).Ok?
    ensures var (w', code) := Delete(w, actor, id, deleteData, f);
            && code == NO_CONTENT
            && w'.reg.servers == w.reg.servers - {id}
            && w.reg.servers[id].port !in ClaimedPorts(w'.reg.servers)
            && NothingOf(w'.host, id)
            && w'.host.volumes ==
                 if deleteData && w.reg.servers[id].containerID != "" then w.host.volumes - {VolumeName(id)}
                 else w.host.volumes
  {
    var (w', _) := Delete(w, actor, id, deleteData, f);
    var c := w.reg.servers[id].containerID;
    TeardownSucceeds(w, id, deleteData, f);
    assert c == "" ==> w.host.containers - {c} == w.host.containers;
    WithoutItsContainerNothingIsLeft(w, id, w'.host);
  }

  /** A series of deletes of one server, each failed by Docker in its own way. */
  ghost predicate AllFail(w: World, actor: string, id: string, deleteData: bool, faults: seq<Faults>)
    decreases |faults|
  {
    faults == []
    || var (w', code) := Delete(w, actor, id, deleteData, faults[0]);
       code == SERVER_ERROR && AllFail(w', actor, id, deleteData, faults[1..])
  }

  ghost function Retried(w: World, actor: string, id: string, deleteData: bool, faults: seq<Faults>): World
    decreases |faults|
  {
    if faults == [] then w
    else Retried(Delete(w, actor, id, deleteData, faults[0]).0, actor, id, deleteData, faults[1..])
  }

  /** However many deletes have failed half way, the record is still there and one good delete finishes the job. */
  lemma {:induction false} RetryFinishesDelete(
    w: World, actor: string, id: string, deleteData: bool, faults: seq<Faults>, f: Faults)
    requires Inv(w) && Lookup(w.reg, actor, id).Ok?
    requires AllFail(w, actor, id, deleteData, faults) && FaultFree(f)
    ensures var tried := Retried(w, actor, id, deleteData, faults);
            var (w', code) := Delete(tried, actor, id, deleteData, f);
            && Inv(tried) && id in tried.reg.servers
            && code == NO_CONTENT && id !in w'.reg.servers
            && w.reg.servers[id].port !in ClaimedPorts(w'.reg.servers)
            && NothingOf(w'.host, id)
            && (deleteData && w.reg.servers[id].containerID != "" ==> VolumeName(id) !in w'.host.volumes)
    decreases |faults|
  {
    if faults == [] {
      DeleteFreesEverything(w, actor, id, deleteData, f);
    } else {
      FailedDeleteKeepsRecord(w, actor, id, deleteData, faults[0]);
      RetryFinishesDelete(Delete(w, actor, id, deleteData, faults[0]).0, actor, id, deleteData, faults[1..], f);
    }
  }

  // --- stopping ---

  /** A stop that Docker does not fail leaves nothing of the server running. */
  lemma StopStops(w: World, actor: string, id: string, f: Faults)
    requires Inv(w) && f.stop.Done?
    requires Lookup(w.reg, actor, id).Ok? && w.reg.servers[id].containerID != ""
    ensures var (w', code) := Stop(w, actor, id, f);
            && code == OK
            && w'.reg.servers == w.reg.servers[id := w.reg.servers[id].(status := Stopped, message := "")]
            && forall c | c in w'.host.containers && w'.host.containers[c].name == ContainerName(id) ::
                 !w'.host.containers[c].running
  {
    var known := w.reg.servers[id].containerID;
    var h := ContainerStop(w.host, known, f.stop).0;
    forall c | c in h.containers && h.containers[c].name == ContainerName(id) ensures !h.containers[c].running {
      OwnName(w, id, c);
    }
  }

  /** A container under a server's name is the one on its record. */
  lemma OwnName(w: World, id: string, c: string)
    requires Inv(w) && id in w.reg.servers
    requires c in w.host.containers && w.host.containers[c].name == ContainerName(id)
    ensures w.reg.servers[id].containerID == c
  {
    var s := OneRecordPerContainer(w, c);
  }

  // --- what a record keeps for life ---

  /** A server in `after` was there before, on the same port, and has not lost its container ID. */
  ghost predicate SameServer(before: map<string, Server>, after: map<string, Server>, id: string) {
    id in after ==>
      && id in before
      && after[id].port == before[id].port
      && (before[id].containerID != "" ==> after[id].containerID != "")
  }

  lemma StartKeepsIdentity(w: World, actor: string, s: string, f: Faults, id: string)
    requires Keyed(w.reg) && f.newContainer != ""
    ensures SameServer(w.reg.servers, Start(w, actor, s, f).0.reg.servers, id)
    ensures Start(w, actor, s, f).0.minted == w.minted
  {
  }

  lemma AddAccountKeepsRows(w: World, id: string, username: string, password: Password, isAdmin: bool)
    ensures var w' := AddAccount(w, id, username, password, isAdmin).0;
            w'.reg.servers == w.reg.servers && w.minted <= w'.minted
  {
  }

  lemma UpdateUserKeepsRows(
    w: World, actor: string, target: string, isAdmin: Option<bool>, password: Option<Password>)
    ensures var w' := UpdateUser(w, actor, target, isAdmin, password).0;
            w'.reg.servers == w.reg.servers && w.minted == w'.minted
  {
  }

  lemma AccountsKeepRows(cfg: Config, w: World, e: Event)
    requires Keyed(w.reg)
    requires e.SeedEvent? || e.RegisterEvent? || e.NewUserEvent? || e.UpdateUserEvent?
    ensures var w' := Serve(cfg, w, e).0; w'.reg.servers == w.reg.servers && w.minted <= w'.minted
  {
    match e
    case RegisterEvent(id, username, password) => AddAccountKeepsRows(w, id, username, password, w.reg.users == map[]);
    case NewUserEvent(actor, id, username, password, isAdmin) =>
      AddAccountKeepsRows(w, id, username, password, isAdmin);
    case UpdateUserEvent(actor, target, isAdmin, password) => UpdateUserKeepsRows(w, actor, target, isAdmin, password);
    case SeedEvent(_, _, _) =>
  }

  lemma CreateKeepsIdentity(
    cfg: Config, w: World, actor: string, input: Input, s: string, busy: set<int>, f: Faults, id: string)
    requires s != id && id in w.minted
    ensures var w' := Create(cfg, w, actor, input, s, busy, f).0;
            id in w'.minted && SameServer(w.reg.servers, w'.reg.servers, id)
  {
  }

  lemma ServeKeepsIdentity(cfg: Config, w: World, e: Event, id: string)
    requires Keyed(w.reg) && w.reg.servers.Keys <= w.minted && Fresh(w, e) && id in w.minted
    ensures id in Serve(cfg, w, e).0.minted
    ensures SameServer(w.reg.servers, Serve(cfg, w, e).0.reg.servers, id)
  {
    match e
    case CreateEvent(actor, input, s, busy, f) => CreateKeepsIdentity(cfg, w, actor, input, s, busy, f, id);
    case StartEvent(actor, s, f) => StartKeepsIdentity(w, actor, s, f, id);
    case UpdateUserEvent(_, _, _, _) => AccountsKeepRows(cfg, w, e);
    case NewUserEvent(_, _, _, _, _) => AccountsKeepRows(cfg, w, e);
    case RegisterEvent(_, _, _) => AccountsKeepRows(cfg, w, e);
    case SeedEvent(_, _, _) => AccountsKeepRows(cfg, w, e);
    case RemoveUserEvent(actor, target, reassign) =>
      if RemoveUser(w, actor, target, reassign).1 == NO_CONTENT {
        ReassignmentShieldsRows(w.reg, target, actor);
      }
    case _ =>
  }

  /** Over any run a server keeps its port, and once it has had a container its record always names one. */
  lemma {:induction false} RunKeepsIdentity(cfg: Config, w: World, run: seq<Event>, id: string)
    requires Inv(w) && FreshRun(cfg, w, run) && id in w.minted
    ensures var w' := After(cfg, w, run);
            SameServer(w.reg.servers, w'.reg.servers, id)
    decreases |run|
  {
    if run != [] {
      ServeKeepsInv(cfg, w, run[0]);
      ServeKeepsIdentity(cfg, w, run[0], id);
      RunKeepsIdentity(cfg, Serve(cfg, w, run[0]).0, run[1..], id);
    }
  }

  // --- accounts ---

  /** Served one at a time, a demotion or deletion never meets the last-admin refusal: its caller is another admin. */
  lemma LastAdminRefusalIsUnreachable(w: World, actor: string, target: string)
    requires RequireAdmin(w.reg, actor) == None
    requires target in w.reg.users && target != actor
    ensures !LastAdmin(w.reg, target)
  {
    if w.reg.users[target].isAdmin {
      var pair := {actor, target};
      assert |pair| == 2;
      assert Admins(w.reg.users) == pair + (Admins(w.reg.users) - pair);
    }
  }

  /** An account update is not all or nothing. A refused update has nevertheless changed something exactly when the role
      was to change and could, and it was the new password that was refused. */
  lemma RefusedUpdateKeepsRoleExactlyWhen(
    w: World, actor: string, target: string, isAdmin: Option<bool>, password: Option<Password>)
    requires RequireAdmin(w.reg, actor) == None && target in w.reg.users
    ensures var (w', code) := UpdateUser(w, actor, target, isAdmin, password);
            var u := w.reg.users[target];
            && (code != OK && w' != w <==>
                  && isAdmin.Some? && isAdmin.value != u.isAdmin && (isAdmin.value || target != actor)
                  && password.Some?
                  && (password.value.hash == None
                      || !GoodUsername(TrimSpace(u.username)) || !GoodPassword(password.value.text)))
            && (code != OK && w' != w ==>
                  w'.reg == w.reg.(users := w.reg.users[target := u.(isAdmin := isAdmin.value)]))
  {
    var users := w.reg.users;
    if isAdmin.Some? && isAdmin.value != users[target].isAdmin {
      assert users[target := users[target].(isAdmin := isAdmin.value)][target] != users[target];
      if target != actor { LastAdminRefusalIsUnreachable(w, actor, target); }
    }
  }

  /** A password can be reset exactly when the new one is good, hashing it succeeds, and the name on record would still be
      accepted; then the hash changes and nothing else. */
  lemma ResetWorksExactlyWhen(w: World, actor: string, target: string, password: Password)
    requires RequireAdmin(w.reg, actor) == None && target in w.reg.users
    ensures var (w', code) := UpdateUser(w, actor, target, None, Some(password));
            var u := w.reg.users[target];
            && (code == OK <==>
                  GoodUsername(TrimSpace(u.username)) && GoodPassword(password.text) && password.hash.Some?)
            && w' == (if code == OK
                      then w.(reg := w.reg.(users := w.reg.users[target := u.(passwordHash := password.hash.value)]))
                      else w)
  {
  }

  function CountFor(servers: map<string, Server>, owner: string): int {
    var counts := GroupedCounts(servers);
    if owner in counts then counts[owner] else 0
  }

  /** Deleting an account loses no server: every record stays, with its port and its container, owned by someone
      who exists; the caller's grouped count grows by exactly the target's, and the counts still add up. */
  lemma RemoveUserConservesServers(w: World, actor: string, target: string, reassign: bool)
    requires Inv(w) && RemoveUser(w, actor, target, reassign).1 == NO_CONTENT
    ensures var w' := RemoveUser(w, actor, target, reassign).0;
            && w'.host == w.host
            && w'.reg.servers.Keys == w.reg.servers.Keys
            && (forall s | s in w.reg.servers ::
                  w'.reg.servers[s] == w.reg.servers[s].(ownerID := w'.reg.servers[s].ownerID)
                  && w'.reg.servers[s].ownerID in w'.reg.users)
            && w'.reg.users == w.reg.users - {target}
            && CountFor(w'.reg.servers, target) == 0
            && CountFor(w'.reg.servers, actor) == CountFor(w.reg.servers, actor) + CountFor(w.reg.servers, target)
            && Total(GroupedCounts(w'.reg.servers), Owners(w'.reg.servers)) == |w.reg.servers|
  {
    var w' := RemoveUser(w, actor, target, reassign).0;
    RemoveUserKeepsInv(w, actor, target, reassign);
    ReassignmentShieldsRows(w.reg, target, actor);
    GroupedCountsTotal(w'.reg.servers);
    assert |w'.reg.servers.Keys| == |w'.reg.servers|;
    CountForIsOwned(w.reg.servers, actor);
    CountForIsOwned(w.reg.servers, target);
    CountForIsOwned(w'.reg.servers, actor);
    CountForIsOwned(w'.reg.servers, target);
    assert Owned(w'.reg.servers, target) == {};
    assert Owned(w.reg.servers, actor) !! Owned(w.reg.servers, target);
  }

  lemma CountForIsOwned(servers: map<string, Server>, owner: string)
    ensures CountFor(servers, owner) == |Owned(servers, owner)|
  {
    if owner !in Owners(servers) {
      forall s | s in servers ensures servers[s].ownerID != owner {
        assert servers[s].ownerID in Owners(servers);
      }
      assert Owned(servers, owner) == {};
    }
  }
}
