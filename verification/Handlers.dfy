/** The HTTP handlers of `internal/api/servers.go` and `internal/api/admin.go`, statement by statement: each loads a
    snapshot, calls Docker, and writes back, and each is proved to do what its step in `Lifecycle` says. */
module Handlers {
  import opened Text
  import opened Models
  import opened Registries
  import opened DockerHosts
  import opened Ports
  import opened Credential
  import opened Lifecycle
  import opened Invariant

  class Api {
    const cfg: Config
    const store: Store
    const docker: Client
    const ports: Allocator
    var minted: set<string>

    constructor (cfg: Config)
      ensures Wired() && fresh(store) && fresh(docker)
      ensures this.cfg == cfg && View() == EMPTY
    {
      this.cfg := cfg;
      var st := new Store();
      store := st;
      docker := new Client();
      ports := new Allocator(cfg.portStart, cfg.portEnd, cfg.probeHost, st);
      minted := {};
    }

    ghost predicate Wired() {
      ports.store == store && ports.start == cfg.portStart && ports.end == cfg.portEnd && ports.probeHost == cfg.probeHost
    }

    function View(): World
      reads this, store, docker
    {
      World(store.View(), docker.View(), minted)
    }

    /** `requireAuth`, then the lookup that hides other people's servers. */
    method Lookup(actor: string, id: string) returns (found: Result<Server, int>)
      ensures found == Lifecycle.Lookup(store.View(), actor, id)
      ensures found == Err(UNAUTHORIZED) <==> actor !in store.users
      ensures found.Ok? <==> actor in store.users && id in store.servers
                             && (store.users[actor].isAdmin || store.servers[id].ownerID == actor)
      ensures found.Ok? ==> found.value == store.servers[id]
      ensures actor in store.users && !store.users[actor].isAdmin && id in store.servers && store.servers[id].ownerID != actor
              ==> forall none | none !in store.servers :: found == Lifecycle.Lookup(store.View(), actor, none)
    {
      var user := store.UserByID(actor);
      if user == None {
        return Err(UNAUTHORIZED);
      }
      var row := store.ServerByID(id);
      if row == None || !(user.value.isAdmin || row.value.ownerID == actor) {
        return Err(NOT_FOUND);
      }
      return Ok(row.value);
    }

    /** The failure is on the record for the owner to see, and nothing else has changed. */
    method FailServer(id: string, error: DockerError)
      requires id in store.servers
      modifies store`servers
      ensures store.View() == SetStatus(old(store.View()), id, Error, ErrorText(error)).value
      ensures store.servers[id].status == Error && store.servers[id].message != ""
      ensures store.servers[id].containerID == old(store.servers)[id].containerID
      ensures forall s | s in store.servers && s != id ::
                s in old(store.servers) && store.servers[s] == old(store.servers)[s]
    {
      var _ := store.RecordStatus(id, Error, ErrorText(error));
    }

    method HandleCreateServer(actor: string, input: CreateServerInput, id: string, busy: set<int>, f: Faults)
      returns (code: int)
      requires Wired()
      modifies this`minted, store, docker, input
      ensures (View(), code) == Create(cfg, old(View()), actor, old(input.Value()), id, busy, f)
    {
      var user := store.UserByID(actor);
      if user == None {
        return UNAUTHORIZED;
      }
      var invalid := input.Validate();
      if invalid != None {
        return BAD_REQUEST;
      }
      var count := store.CountServers();
      if count >= cfg.maxServers {
        return CONFLICT;
      }
      if input.provider == MODPACK_CURSEFORGE && cfg.curseForgeKey == "" {
        return BAD_REQUEST;
      }
      var port := ports.Allocate(busy);
      if port == None {
        return CONFLICT;
      }
      var memory := if input.memory == "" then cfg.defaultMemory else input.memory;
      var cpu := if input.cpuLimit == 0.0 then cfg.defaultCPU else input.cpuLimit;
      var srv := Server(id, input.name, actor, input.kind, input.version, input.provider, input.modpackID,
                        port.value, memory, cpu, Creating, "", "");
      code := InstallServer(srv, f);
    }

    /** The second half of a create: the record is written first, so a failed container leaves a visible server. */
    method InstallServer(row: Server, f: Faults) returns (code: int)
      modifies this`minted, store, docker
      ensures (View(), code) == Install(old(View()), row, f)
    {
      minted := minted + {row.id};
      var refused := store.CreateServer(row);
      if refused == Some(PortTaken) {
        return CONFLICT;
      }
      if refused != None {
        return SERVER_ERROR;
      }
      var srv := row;
      var made := docker.CreateServer(SpecFor(srv), f);
      if made.Err? {
        FailServer(srv.id, made.error);
        OverwriteTwice(old(store.servers), srv.id, srv, store.servers[srv.id]);
        return SERVER_ERROR;
      }
      srv := srv.(containerID := made.value, status := Stopped);
      var _ := store.Update(srv);
      OverwriteTwice(old(store.servers), srv.id, row, srv);
      return CREATED;
    }

    method HandleUpdateServer(actor: string, id: string, name: Option<string>) returns (code: int)
      requires Keyed(store.View())
      modifies store`servers
      ensures (View(), code) == Rename(old(View()), actor, id, name)
    {
      var found := Lookup(actor, id);
      if found.Err? {
        return found.error;
      }
      var srv := found.value;
      if name.Some? {
        var trimmed := TrimSpace(name.value);
        if trimmed == "" || ByteLength(trimmed) > 64 {
          return BAD_REQUEST;
        }
        srv := srv.(name := trimmed);
      }
      var _ := store.Update(srv);
      assert old(store.servers)[id := old(store.servers)[id]] == old(store.servers);
      return OK;
    }

    /** Clears a stale container of the same name, builds a new one, and records its ID. */
    method RecreateContainer(srv: Server, f: Faults) returns (made: Result<string, DockerError>)
      requires srv.id in store.servers
      modifies store`servers, docker
      ensures var cleared := if srv.containerID == "" then old(docker.View())
                             else Teardown(old(docker.View()), srv.containerID, VolumeName(srv.id), false, f).0;
              (docker.View(), made) == Provision(cleared, SpecFor(srv), f)
      ensures store.View() == match made
                              case Ok(c) => SetContainerID(old(store.View()), srv.id, c).value
                              case Err(_) => old(store.View())
    {
      if srv.containerID != "" {
        var _ := docker.RemoveServer(srv.containerID, VolumeName(srv.id), false, f);
      }
      made := docker.CreateServer(SpecFor(srv), f);
      if made.Ok? {
        var _ := store.RecordContainerID(srv.id, made.value);
      }
    }

    /** What a start does about a container that turned out to be missing. */
    method Relaunch(srv: Server, f: Faults) returns (error: Option<DockerError>)
      requires srv.id in store.servers && srv.containerID !in docker.containers
      modifies store`servers, docker
      ensures var (h, made) := Provision(old(docker.View()), SpecFor(srv), f);
              match made
              case Err(e) => docker.View() == h && error == Some(e) && store.View() == old(store.View())
              case Ok(c) =>
                && (docker.View(), error) == ContainerStart(h, c, f.restart)
                && store.View() == SetContainerID(old(store.View()), srv.id, c).value
    {
      var made := RecreateContainer(srv, f);
      if made.Ok? {
        error := docker.StartServer(made.value, f.restart);
      } else {
        error := Some(made.error);
      }
    }

    method HandleStartServer(actor: string, id: string, f: Faults) returns (code: int)
      requires Keyed(store.View())
      modifies store`servers, docker
      ensures (View(), code) == Start(old(View()), actor, id, f)
    {
      var found := Lookup(actor, id);
      if found.Err? {
        return found.error;
      }
      var srv := found.value;
      if srv.containerID == "" {
        var made := RecreateContainer(srv, f);
        if made.Err? {
          FailServer(id, made.error);
          return SERVER_ERROR;
        }
        srv := srv.(containerID := made.value);
      }
      var error := docker.StartServer(srv.containerID, f.start);
      if error == Some(NotFound) {
        error := Relaunch(srv, f);
      }
      code := SettleStart(id, error);
    }

    /** The end of a start: starting, or in error and saying why. */
    method SettleStart(id: string, error: Option<DockerError>) returns (code: int)
      requires id in store.servers
      modifies store`servers
      ensures match error
              case None => code == OK && store.View() == SetStatus(old(store.View()), id, Starting, "").value
              case Some(e) =>
                code == SERVER_ERROR && store.View() == SetStatus(old(store.View()), id, Error, ErrorText(e)).value
    {
      if error.Some? {
        FailServer(id, error.value);
        return SERVER_ERROR;
      }
      var _ := store.RecordStatus(id, Starting, "");
      return OK;
    }

    method HandleStopServer(actor: string, id: string, f: Faults) returns (code: int)
      requires Keyed(store.View())
      modifies store`servers, docker
      ensures (View(), code) == Stop(old(View()), actor, id, f)
    {
      var found := Lookup(actor, id);
      if found.Err? {
        return found.error;
      }
      var srv := found.value;
      if srv.containerID == "" {
        return CONFLICT;
      }
      var _ := store.RecordStatus(id, Stopping, "");
      var error := docker.StopServer(srv.containerID, f);
      if error.Some? && error != Some(NotFound) {
        FailServer(id, error.value);
        code := SERVER_ERROR;
      } else {
        var _ := store.RecordStatus(id, Stopped, "");
        code := OK;
      }
      OverwriteTwice(old(store.servers), id, srv.(status := Stopping, message := ""), store.servers[id]);
    }

    method HandleDeleteServer(actor: string, id: string, deleteData: bool, f: Faults) returns (code: int)
      requires Keyed(store.View())
      modifies store`servers, docker
      ensures (View(), code) == Delete(old(View()), actor, id, deleteData, f)
    {
      var found := Lookup(actor, id);
      if found.Err? {
        return found.error;
      }
      var srv := found.value;
      if srv.containerID != "" {
        var error := docker.RemoveServer(srv.containerID, VolumeName(srv.id), deleteData, f);
        if error.Some? && error != Some(NotFound) {
          FailServer(id, error.value);
          return SERVER_ERROR;
        }
      }
      var _ := store.RemoveServer(id);
      return NO_CONTENT;
    }

    // --- accounts ---

    /** Validates and hashes: the name to store, or the code of the refusal. */
    method CheckAccount(username: string, password: Password) returns (name: Result<string, int>)
      ensures name == if !(GoodUsername(TrimSpace(username)) && GoodPassword(password.text)) then Err(BAD_REQUEST)
                      else if password.hash == None then Err(SERVER_ERROR)
                      else Ok(TrimSpace(username))
    {
      var creds := new Credentials(username, password.text);
      var message := creds.Validate();
      if message != "" {
        return Err(BAD_REQUEST);
      }
      if password.hash == None {
        return Err(SERVER_ERROR);
      }
      return Ok(creds.username);
    }

    method HandleRegister(id: string, username: string, password: Password) returns (code: int)
      modifies this`minted, store
      ensures (View(), code) == Register(cfg, old(View()), id, username, password)
    {
      if !cfg.allowRegistration {
        return FORBIDDEN;
      }
      var name := CheckAccount(username, password);
      if name.Err? {
        return name.error;
      }
      var existing := store.AnyUserExists();
      minted := minted + {id};
      var user := store.CreateUser(id, name.value, password.hash.value, !existing);
      return if user.Ok? then CREATED else CONFLICT;
    }

    method SeedAdmin(id: string, username: string, password: Password)
      modifies this`minted, store
      ensures View() == Seed(old(View()), id, username, password)
    {
      if username == "" || password.text == "" {
        return;
      }
      var exists_ := store.AnyUserExists();
      if exists_ || password.hash == None {
        return;
      }
      minted := minted + {id};
      var u := store.CreateUser(id, username, password.hash.value, true);
      assert old(store.users)[id := u.value] == map[id := u.value];
    }

    method RequireAdmin(actor: string) returns (refusal: Option<int>)
      ensures refusal == Lifecycle.RequireAdmin(store.View(), actor)
    {
      var user := store.UserByID(actor);
      return if user == None then Some(UNAUTHORIZED) else if !user.value.isAdmin then Some(FORBIDDEN) else None;
    }

    method HandleCreateUser(actor: string, id: string, username: string, password: Password, isAdmin: bool)
      returns (code: int)
      modifies this`minted, store
      ensures (View(), code) == NewUser(old(View()), actor, id, username, password, isAdmin)
    {
      var refusal := RequireAdmin(actor);
      if refusal.Some? {
        return refusal.value;
      }
      var name := CheckAccount(username, password);
      if name.Err? {
        return name.error;
      }
      minted := minted + {id};
      var user := store.CreateUser(id, name.value, password.hash.value, isAdmin);
      return if user.Ok? then CREATED else CONFLICT;
    }

    /** Going ahead leaves another admin in place; refusing means that nobody but the target could be one. */
    method EnsureAnotherAdmin(target: User) returns (ok: bool)
      ensures ok && target.isAdmin ==> exists a :: a in Admins(store.users) && a != target.id
      ensures !ok ==> target.isAdmin && forall a, b | a in Admins(store.users) && b in Admins(store.users) :: a == b
    {
      var admins := store.CountAdmins();
      CountingAdmins(store.users, target.id);
      return !(target.isAdmin && admins <= 1);
    }

    /** The role part of an account update. */
    method ChangeRole(actor: string, target: User, isAdmin: bool) returns (code: int)
      requires Consistent(store.View()) && Lifecycle.RequireAdmin(store.View(), actor) == None
      requires target.id in store.users && store.users[target.id] == target
      modifies store
      ensures (View(), code) == SetRole(old(View()), actor, target.id, isAdmin)
    {
      if isAdmin != target.isAdmin {
        if target.id == actor && !isAdmin {
          return CONFLICT;
        }
        if !isAdmin {
          var ok := EnsureAnotherAdmin(target);
          LastAdminHasNoPeer(store.View(), target.id);
          assert target.isAdmin && target.id in Admins(store.users);
          if !ok {
            return CONFLICT;
          }
        }
        var _ := store.SetAdmin(target.id, isAdmin);
      }
      return OK;
    }

    /** The password part: the name of the snapshot is validated along with the new password. */
    method ChangePassword(target: User, password: Password) returns (code: int)
      requires target.id in store.users && store.users[target.id].username == target.username
      modifies store
      ensures (View(), code) == ResetPassword(old(View()), target.id, password)
    {
      var creds := new Credentials(target.username, password.text);
      var message := creds.Validate();
      if message != "" {
        return BAD_REQUEST;
      }
      if password.hash == None {
        return SERVER_ERROR;
      }
      var _ := store.SetPassword(target.id, password.hash.value);
      return OK;
    }

    method HandleUpdateUser(actor: string, targetID: string, isAdmin: Option<bool>, password: Option<Password>)
      returns (code: int)
      requires Consistent(store.View())
      modifies store
      ensures (View(), code) == UpdateUser(old(View()), actor, targetID, isAdmin, password)
    {
      var refusal := RequireAdmin(actor);
      if refusal.Some? {
        return refusal.value;
      }
      var target := store.UserByID(targetID);
      if target == None {
        return NOT_FOUND;
      }
      code := OK;
      if isAdmin.Some? {
        code := ChangeRole(actor, target.value, isAdmin.value);
      }
      if code == OK && password.Some? {
        code := ChangePassword(target.value, password.value);
      }
    }

    /** The servers of the target change hands, if there are any and that was asked for. */
    method HandOver(target: string, actor: string, reassign: bool) returns (ok: bool)
      requires actor in store.users
      modifies store`servers
      ensures ok <==> Owned(old(store.servers), target) == {} || reassign
      ensures store.View() == if ok then ReassignServers(old(store.View()), target, actor).value else old(store.View())
    {
      NothingOwnedNothingMoved(store.View(), target, actor);
      var counts := store.ServerCountsByOwner();
      if target in counts && counts[target] > 0 {
        if !reassign {
          return false;
        }
        var _ := store.Reassign(target, actor);
      }
      return true;
    }

    method HandleDeleteUser(actor: string, targetID: string, reassign: bool) returns (code: int)
      requires Consistent(store.View())
      modifies store
      ensures (View(), code) == RemoveUser(old(View()), actor, targetID, reassign)
    {
      var refusal := RequireAdmin(actor);
      if refusal.Some? {
        return refusal.value;
      }
      var target := store.UserByID(targetID);
      if target == None {
        return NOT_FOUND;
      }
      if target.value.id == actor {
        return CONFLICT;
      }
      if target.value.isAdmin {
        var ok := EnsureAnotherAdmin(target.value);
        LastAdminHasNoPeer(store.View(), targetID);
        assert targetID in Admins(store.users);
        if !ok {
          return CONFLICT;
        }
      }
      var handedOver := HandOver(targetID, actor, reassign);
      if !handedOver {
        return CONFLICT;
      }
      var _ := store.RemoveUser(targetID);
      return NO_CONTENT;
    }

    // --- runs ---

    /** One request, or one event outside the platform. */
    method Serve(e: Event) returns (code: int)
      requires Wired() && Inv(View()) && Fresh(View(), e)
      modifies this`minted, store, docker
      ensures (View(), code) == Lifecycle.Serve(cfg, old(View()), e)
      ensures Inv(View())
    {
      ServeKeepsInv(cfg, View(), e);
      match e
      case CreateEvent(actor, v, id, busy, f) =>
        var input := new CreateServerInput(v);
        code := HandleCreateServer(actor, input, id, busy, f);
      case RenameEvent(actor, id, name) => code := HandleUpdateServer(actor, id, name);
      case StartEvent(actor, id, f) => code := HandleStartServer(actor, id, f);
      case StopEvent(actor, id, f) => code := HandleStopServer(actor, id, f);
      case DeleteEvent(actor, id, deleteData, f) => code := HandleDeleteServer(actor, id, deleteData, f);
      case SeedEvent(id, username, password) =>
        SeedAdmin(id, username, password);
        code := OK;
      case RegisterEvent(id, username, password) => code := HandleRegister(id, username, password);
      case NewUserEvent(actor, id, username, password, isAdmin) =>
        code := HandleCreateUser(actor, id, username, password, isAdmin);
      case UpdateUserEvent(actor, target, isAdmin, password) =>
        code := HandleUpdateUser(actor, target, isAdmin, password);
      case RemoveUserEvent(actor, target, reassign) => code := HandleDeleteUser(actor, target, reassign);
      case _ =>
        var h := Outside(docker.View(), e);
        docker.containers, docker.volumes, docker.issued := h.containers, h.volumes, h.issued;
        code := OK;
    }

    /** Requests and outside events, one after the other. */
    method ServeAll(run: seq<Event>)
      requires Wired() && Inv(View()) && FreshRun(cfg, View(), run)
      modifies this`minted, store, docker
      ensures View() == After(cfg, old(View()), run)
      ensures Inv(View())
    {
      var i := 0;
      while i < |run|
        invariant 0 <= i <= |run|
        invariant Inv(View()) && FreshRun(cfg, View(), run[i..])
        invariant After(cfg, old(View()), run) == After(cfg, View(), run[i..])
      {
        assert run[i..][0] == run[i] && run[i..][1..] == run[i + 1..];
        var _ := Serve(run[i]);
        i := i + 1;
      }
    }
  }

  lemma OverwriteTwice(servers: map<string, Server>, id: string, first: Server, second: Server)
    ensures servers[id := first][id := second] == servers[id := second]
  {
  }

  /** More than one admin: then there is one besides any given account. At most one: then there are no two. */
  lemma CountingAdmins(users: map<string, User>, id: string)
    ensures |Admins(users)| > 1 ==> exists a :: a in Admins(users) && a != id
    ensures |Admins(users)| <= 1 ==> forall a, b | a in Admins(users) && b in Admins(users) :: a == b
  {
    if |Admins(users)| > 1 {
      var a :| a in Admins(users);
      assert |Admins(users) - {a}| > 0;
      var b :| b in Admins(users) - {a};
    } else {
      forall a, b | a in Admins(users) && b in Admins(users) ensures a == b {
        SubsetSize({a, b}, Admins(users));
      }
    }
  }

  /** The last admin is the admin without a peer. */
  lemma LastAdminHasNoPeer(r: Registry, target: string)
    requires target in r.users
    ensures LastAdmin(r, target) <==> r.users[target].isAdmin && forall a | a in Admins(r.users) :: a == target
  {
    CountingAdmins(r.users, target);
    assert r.users[target].isAdmin ==> target in Admins(r.users);
    if r.users[target].isAdmin && forall a | a in Admins(r.users) :: a == target {
      SubsetSize(Admins(r.users), {target});
    }
  }

  lemma NothingOwnedNothingMoved(r: Registry, from: string, to: string)
    requires to in r.users
    ensures from !in Owners(r.servers) <==> Owned(r.servers, from) == {}
    ensures Owned(r.servers, from) == {} ==> ReassignServers(r, from, to) == Ok(r)
  {
    forall s | s in r.servers && r.servers[s].ownerID == from ensures s in Owned(r.servers, from) {}
    if Owned(r.servers, from) == {} {
      assert ReassignServers(r, from, to).value.servers == r.servers;
    }
  }
}
