/** Whole requests of `internal/api/servers.go` and `internal/api/admin.go`, served one at a time, as steps of a
    system made of the registry and the Docker host. Engine calls fail as `Faults` says. */
module Lifecycle {
  import opened Text
  import opened Models
  import opened Registries
  import opened DockerHosts
  import opened Ports
  import opened Credential

  datatype Config = Config(
    maxServers: int, portStart: int, portEnd: int, probeHost: bool,
    defaultMemory: string, defaultCPU: real, curseForgeKey: string, allowRegistration: bool)

  /** A password and what hashing it gives: bcrypt is salted, and fails on input it finds too long. */
  datatype Password = Password(text: string, hash: Option<string>)

  /** `minted` holds every UUID generated so far. */
  datatype World = World(reg: Registry, host: Host, minted: set<string>)

  // HTTP status codes of the replies.
  const OK := 200
  const CREATED := 201
  const NO_CONTENT := 204
  const BAD_REQUEST := 400
  const UNAUTHORIZED := 401
  const FORBIDDEN := 403
  const NOT_FOUND := 404
  const CONFLICT := 409
  const SERVER_ERROR := 500

  // --- requests on one server ---

  /** The record `actor` may manage under `id`; a server owned by someone else is reported as missing. */
  function Lookup(reg: Registry, actor: string, id: string): Result<Server, int> {
    if actor !in reg.users then Err(UNAUTHORIZED)
    else if id !in reg.servers then Err(NOT_FOUND)
    else if reg.users[actor].isAdmin || reg.servers[id].ownerID == actor then Ok(reg.servers[id])
    else Err(NOT_FOUND)
  }

  function Mark(w: World, id: string, status: Status, message: string): World
    requires id in w.reg.servers
  {
    w.(reg := SetStatus(w.reg, id, status, message).value)
  }

  function RowFor(cfg: Config, v: Input, id: string, owner: string, port: int): Server {
    Server(id, v.name, owner, v.kind, v.version, v.provider, v.modpackID, port,
           if v.memory == "" then cfg.defaultMemory else v.memory,
           if v.cpuLimit == 0.0 then cfg.defaultCPU else v.cpuLimit,
           Creating, "", "")
  }

  /** Whether a create request gets as far as inserting a record, and on which port. */
  function Admit(cfg: Config, reg: Registry, actor: string, v: Input, busy: set<int>): Result<int, int> {
    if actor !in reg.users then Err(UNAUTHORIZED)
    else if !Acceptable(v) then Err(BAD_REQUEST)
    else if |reg.servers| >= cfg.maxServers then Err(CONFLICT)
    else if v.provider == MODPACK_CURSEFORGE && cfg.curseForgeKey == "" then Err(BAD_REQUEST)
    else
      match LowestFree(cfg.portStart, cfg.portEnd, ClaimedPorts(reg.servers), if cfg.probeHost then busy else {})
      case None => Err(CONFLICT)
      case Some(port) => Ok(port)
  }

  /** The record first, then its container; whatever Docker does, the record stays and holds its port. */
  function Install(w: World, row: Server, f: Faults): (World, int) {
    var minted := w.minted + {row.id};
    match InsertServer(w.reg, row)
    case Err(e) => (w.(minted := minted), if e == PortTaken then CONFLICT else SERVER_ERROR)
    case Ok(reg) =>
      var (host, made) := Provision(w.host, SpecFor(row), f);
      var row' := match made
        case Ok(c) => row.(containerID := c, status := Stopped)
        case Err(e) => row.(status := Error, message := ErrorText(e));
      (World(w.reg.(servers := w.reg.servers[row.id := row']), host, minted), if made.Ok? then CREATED else SERVER_ERROR)
  }

  function Create(cfg: Config, w: World, actor: string, input: Input, id: string, busy: set<int>, f: Faults)
    : (World, int)
  {
    var v := Normalised(input);
    match Admit(cfg, w.reg, actor, v, busy)
    case Err(code) => (w, code)
    case Ok(port) => Install(w, RowFor(cfg, v, id, actor, port), f)
  }

  function Rename(w: World, actor: string, id: string, name: Option<string>): (World, int) {
    match Lookup(w.reg, actor, id)
    case Err(code) => (w, code)
    case Ok(srv) =>
      if name.None? then (w, OK)
      else
        var trimmed := TrimSpace(name.value);
        if 0 < ByteLength(trimmed) <= 64 then
          (w.(reg := w.reg.(servers := w.reg.servers[id := srv.(name := trimmed)])), OK)
        else (w, BAD_REQUEST)
  }

  /** The record names a container, and it exists. */
  predicate Live(h: Host, srv: Server) {
    srv.containerID != "" && srv.containerID in h.containers
  }

  /** A record whose container is gone, or was never made, gets a fresh one before the start. */
  function Rebuild(w: World, srv: Server, f: Faults): (World, Result<string, DockerError>)
    requires srv.id in w.reg.servers
  {
    var (host, made) := Provision(w.host, SpecFor(srv), f);
    (match made
     case Ok(c) => w.(host := host, reg := SetContainerID(w.reg, srv.id, c).value)
     case Err(_) => w.(host := host),
     made)
  }

  function Launch(w: World, id: string, c: string, o: Outcome): (World, int)
    requires id in w.reg.servers
  {
    var (host, error) := ContainerStart(w.host, c, o);
    match error
    case None => (Mark(w.(host := host), id, Starting, ""), OK)
    case Some(e) => (Mark(w.(host := host), id, Error, ErrorText(e)), SERVER_ERROR)
  }

  /** The first start call settles the matter: it finds the container, or fails before it gets to look. */
  predicate Settled(h: Host, srv: Server, f: Faults) {
    srv.containerID != "" && (srv.containerID in h.containers || !f.start.Done?)
  }

  /** What the start call after a rebuild meets: it is the first such call if there was no ID to try. */
  function AfterRebuild(srv: Server, f: Faults): Outcome {
    if srv.containerID == "" then f.start else f.restart
  }

  function Start(w: World, actor: string, id: string, f: Faults): (World, int)
    requires Keyed(w.reg)
  {
    match Lookup(w.reg, actor, id)
    case Err(code) => (w, code)
    case Ok(srv) =>
      if Settled(w.host, srv, f) then Launch(w, id, srv.containerID, f.start)
      else
        var (built, made) := Rebuild(w, srv, f);
        match made
        case Err(e) => (Mark(built, id, Error, ErrorText(e)), SERVER_ERROR)
        case Ok(c) => Launch(built, id, c, AfterRebuild(srv, f))
  }

  /** A container that is already gone counts as stopped. */
  function Stop(w: World, actor: string, id: string, f: Faults): (World, int) {
    match Lookup(w.reg, actor, id)
    case Err(code) => (w, code)
    case Ok(srv) =>
      if srv.containerID == "" then (w, CONFLICT)
      else
        var (host, error) := ContainerStop(w.host, srv.containerID, f.stop);
        if error.Some? && error.value.Failed? then
          (Mark(w.(host := host), id, Error, ErrorText(error.value)), SERVER_ERROR)
        else (Mark(w.(host := host), id, Stopped, ""), OK)
  }

  /** The record goes only after Docker has let go of the container. */
  function Delete(w: World, actor: string, id: string, deleteData: bool, f: Faults): (World, int) {
    match Lookup(w.reg, actor, id)
    case Err(code) => (w, code)
    case Ok(srv) =>
      var (host, error) :=
        if srv.containerID == "" then (w.host, None)
        else Teardown(w.host, srv.containerID, VolumeName(srv.id), deleteData, f);
      match error
      case Some(e) => (Mark(w.(host := host), id, Error, ErrorText(e)), SERVER_ERROR)
      case None => (w.(host := host, reg := DeleteServer(w.reg, id).value), NO_CONTENT)
  }

  // --- requests on accounts ---

  /** Validates, hashes, inserts. */
  function AddAccount(w: World, id: string, username: string, password: Password, isAdmin: bool): (World, int) {
    var name := TrimSpace(username);
    if !(GoodUsername(name) && GoodPassword(password.text)) then (w, BAD_REQUEST)
    else if password.hash.None? then (w, SERVER_ERROR)
    else
      match InsertUser(w.reg, User(id, name, password.hash.value, isAdmin))
      case Err(_) => (w.(minted := w.minted + {id}), CONFLICT)
      case Ok(reg) => (World(reg, w.host, w.minted + {id}), CREATED)
  }

  /** The first account to register becomes the admin. */
  function Register(cfg: Config, w: World, id: string, username: string, password: Password): (World, int) {
    if !cfg.allowRegistration then (w, FORBIDDEN)
    else AddAccount(w, id, username, password, w.reg.users == map[])
  }

  /** At startup: an admin account, if a password was configured and there is no account yet. Nothing is validated. */
  function Seed(w: World, id: string, username: string, password: Password): World {
    if username == "" || password.text == "" || w.reg.users != map[] || password.hash.None? then w
    else World(w.reg.(users := map[id := User(id, username, password.hash.value, true)]), w.host, w.minted + {id})
  }

  function RequireAdmin(reg: Registry, actor: string): Option<int> {
    if actor !in reg.users then Some(UNAUTHORIZED)
    else if !reg.users[actor].isAdmin then Some(FORBIDDEN)
    else None
  }

  function NewUser(w: World, actor: string, id: string, username: string, password: Password, isAdmin: bool)
    : (World, int)
  {
    match RequireAdmin(w.reg, actor)
    case Some(code) => (w, code)
    case None => AddAccount(w, id, username, password, isAdmin)
  }

  /** The target is an admin, and at most one admin is counted. */
  predicate LastAdmin(reg: Registry, target: string)
    requires target in reg.users
  {
    reg.users[target].isAdmin && |Admins(reg.users)| <= 1
  }

  function SetRole(w: World, actor: string, target: string, isAdmin: bool): (World, int) {
    match RequireAdmin(w.reg, actor)
    case Some(code) => (w, code)
    case None =>
      if target !in w.reg.users then (w, NOT_FOUND)
      else if isAdmin == w.reg.users[target].isAdmin then (w, OK)
      else if target == actor && !isAdmin then (w, CONFLICT)
      else if !isAdmin && LastAdmin(w.reg, target) then (w, CONFLICT)
      else (w.(reg := SetUserAdmin(w.reg, target, isAdmin).value), OK)
  }

  /** The name on record is checked again along with the new password. */
  function ResetPassword(w: World, target: string, password: Password): (World, int)
    requires target in w.reg.users
  {
    if !(GoodUsername(TrimSpace(w.reg.users[target].username)) && GoodPassword(password.text)) then (w, BAD_REQUEST)
    else if password.hash.None? then (w, SERVER_ERROR)
    else (w.(reg := SetUserPassword(w.reg, target, password.hash.value).value), OK)
  }

  /** The role first, then the password; what the role change has written stays when the password is refused. */
  function UpdateUser(w: World, actor: string, target: string, isAdmin: Option<bool>, password: Option<Password>)
    : (World, int)
  {
    match RequireAdmin(w.reg, actor)
    case Some(code) => (w, code)
    case None =>
      if target !in w.reg.users then (w, NOT_FOUND)
      else
        var (w', code) := if isAdmin.None? then (w, OK) else SetRole(w, actor, target, isAdmin.value);
        if code != OK || password.None? then (w', code) else ResetPassword(w', target, password.value)
  }

  /** The target's servers move to the calling admin before the account goes. */
  function RemoveUser(w: World, actor: string, target: string, reassign: bool): (World, int) {
    match RequireAdmin(w.reg, actor)
    case Some(code) => (w, code)
    case None =>
      if target !in w.reg.users then (w, NOT_FOUND)
      else if target == actor then (w, CONFLICT)
      else if LastAdmin(w.reg, target) then (w, CONFLICT)
      else if Owned(w.reg.servers, target) != {} && !reassign then (w, CONFLICT)
      else (w.(reg := TransferAndDelete(w.reg, target, actor)), NO_CONTENT)
  }

  // --- runs ---

  datatype Event =
    | CreateEvent(actor: string, input: Input, id: string, busy: set<int>, faults: Faults)
    | RenameEvent(actor: string, id: string, name: Option<string>)
    | StartEvent(actor: string, id: string, faults: Faults)
    | StopEvent(actor: string, id: string, faults: Faults)
    | DeleteEvent(actor: string, id: string, deleteData: bool, faults: Faults)
    | SeedEvent(id: string, username: string, password: Password)
    | RegisterEvent(id: string, username: string, password: Password)
    | NewUserEvent(actor: string, id: string, username: string, password: Password, isAdmin: bool)
    | UpdateUserEvent(actor: string, target: string, newRole: Option<bool>, newPassword: Option<Password>)
    | RemoveUserEvent(actor: string, target: string, reassign: bool)
    // What happens outside the platform: `docker rm`, a container dying or coming back, a game saving its world.
    | OutsideRemove(container: string)
    | OutsideExit(container: string)
    | OutsideRestart(container: string)
    | Play(container: string, chunk: string)

  /** What outside events do to the host. */
  function Outside(h: Host, e: Event): Host {
    match e
    case OutsideRemove(c) => ContainerRemove(h, c, Done).0
    case OutsideExit(c) => ContainerStop(h, c, Done).0
    case OutsideRestart(c) => ContainerStart(h, c, Done).0
    case Play(c, chunk) => Saved(h, c, chunk)
    case _ => h
  }

  function Serve(cfg: Config, w: World, e: Event): (World, int)
    requires Keyed(w.reg)
  {
    match e
    case CreateEvent(actor, input, id, busy, f) => Create(cfg, w, actor, input, id, busy, f)
    case RenameEvent(actor, id, name) => Rename(w, actor, id, name)
    case StartEvent(actor, id, f) => Start(w, actor, id, f)
    case StopEvent(actor, id, f) => Stop(w, actor, id, f)
    case DeleteEvent(actor, id, deleteData, f) => Delete(w, actor, id, deleteData, f)
    case SeedEvent(id, username, password) => (Seed(w, id, username, password), OK)
    case RegisterEvent(id, username, password) => Register(cfg, w, id, username, password)
    case NewUserEvent(actor, id, username, password, isAdmin) => NewUser(w, actor, id, username, password, isAdmin)
    case UpdateUserEvent(actor, target, isAdmin, password) => UpdateUser(w, actor, target, isAdmin, password)
    case RemoveUserEvent(actor, target, reassign) => RemoveUser(w, actor, target, reassign)
    case _ => (w.(host := Outside(w.host, e)), OK)
  }

  /** Rows are stored under their own primary key. */
  ghost predicate Keyed(r: Registry) {
    forall s | s in r.servers :: r.servers[s].id == s
  }
}
