/** What each request answers and what it leaves behind, in terms of the tables and the host alone: for every request, every
    Docker failure and every sound world, the reply code, the row, the message and the container. */
module Outcomes {
  import opened Text
  import opened Models
  import opened Credential
  import opened Registries
  import opened DockerHosts
  import opened Ports
  import opened Lifecycle
  import opened Invariant
  import opened Guarantees

  // --- who may ask ---

  /** Signed in, and the owner of the server or an admin. */
  predicate MayManage(reg: Registry, actor: string, id: string) {
    && actor in reg.users && id in reg.servers
    && (reg.servers[id].ownerID == actor || reg.users[actor].isAdmin)
  }

  /** Owners and admins get the record; everyone else who is signed in hears that there is no such server. */
  lemma LookupAnswers(reg: Registry, actor: string, id: string)
    ensures Lookup(reg, actor, id).Ok? <==> MayManage(reg, actor, id)
    ensures Lookup(reg, actor, id).Ok? ==> Lookup(reg, actor, id).value == reg.servers[id]
    ensures Lookup(reg, actor, id) == Err(UNAUTHORIZED) <==> actor !in reg.users
    ensures Lookup(reg, actor, id) == Err(NOT_FOUND) <==> actor in reg.users && !MayManage(reg, actor, id)
  {
  }

  lemma RequireAdminAnswers(reg: Registry, actor: string)
    ensures RequireAdmin(reg, actor) == None <==> actor in Admins(reg.users)
    ensures RequireAdmin(reg, actor) == Some(UNAUTHORIZED) <==> actor !in reg.users
    ensures RequireAdmin(reg, actor) == Some(FORBIDDEN) <==> actor in reg.users && actor !in Admins(reg.users)
  {
  }

  /** A request on a server that its caller may not manage does nothing at all. */
  lemma WithoutRightNothingHappens(cfg: Config, w: World, e: Event)
    requires Keyed(w.reg)
    requires match e
             case RenameEvent(actor, id, _) => !MayManage(w.reg, actor, id)
             case StartEvent(actor, id, _) => !MayManage(w.reg, actor, id)
             case StopEvent(actor, id, _) => !MayManage(w.reg, actor, id)
             case DeleteEvent(actor, id, _, _) => !MayManage(w.reg, actor, id)
             case _ => false
    ensures Serve(cfg, w, e) == (w, if e.actor in w.reg.users then NOT_FOUND else UNAUTHORIZED)
  {
  }

  /** Nothing changes but the row of one server. */
  ghost predicate OnlyRow(w: World, w': World, id: string, row: Server) {
    && w'.reg == w.reg.(servers := w.reg.servers[id := row])
    && w'.minted == w.minted
  }

  // --- creating ---

  predicate Claims(reg: Registry, p: int) {
    exists s :: s in reg.servers && reg.servers[s].port == p
  }

  /** Every port of the range is on some record, or found busy. */
  predicate NoPortLeft(cfg: Config, reg: Registry, busy: set<int>) {
    forall p | cfg.portStart <= p <= cfg.portEnd :: Claims(reg, p) || (cfg.probeHost && p in busy)
  }

  lemma ExhaustedExactlyWhen(cfg: Config, reg: Registry, busy: set<int>)
    ensures LowestFree(cfg.portStart, cfg.portEnd, ClaimedPorts(reg.servers), if cfg.probeHost then busy else {}) == None
            <==> NoPortLeft(cfg, reg, busy)
  {
    var held := if cfg.probeHost then busy else {};
    forall p ensures Free(p, ClaimedPorts(reg.servers), held) <==> !Claims(reg, p) && !(cfg.probeHost && p in busy) {}
    var port := LowestFree(cfg.portStart, cfg.portEnd, ClaimedPorts(reg.servers), held);
    if port.Some? {
      assert !Claims(reg, port.value);
    }
  }

  /** Who is refused a server, and with what, in the order of the checks. */
  lemma AdmitAnswers(cfg: Config, reg: Registry, actor: string, v: Input, busy: set<int>)
    ensures var full := |reg.servers| >= cfg.maxServers;
            var keyless := v.provider == "curseforge" && cfg.curseForgeKey == "";
            var answer := Admit(cfg, reg, actor, v, busy);
            && (answer == Err(UNAUTHORIZED) <==> actor !in reg.users)
            && (answer == Err(BAD_REQUEST) <==> actor in reg.users && (!Acceptable(v) || (!full && keyless)))
            && (answer == Err(CONFLICT) <==>
                  actor in reg.users && Acceptable(v) && (full || (!keyless && NoPortLeft(cfg, reg, busy))))
            && (answer.Ok? <==>
                  actor in reg.users && Acceptable(v) && !full && !keyless && !NoPortLeft(cfg, reg, busy))
  {
    ExhaustedExactlyWhen(cfg, reg, busy);
  }

  /** A refused create changes nothing. */
  lemma RefusedCreateDoesNothing(
    cfg: Config, w: World, actor: string, input: Input, id: string, busy: set<int>, f: Faults)
    requires Keyed(w.reg) && Admit(cfg, w.reg, actor, Normalised(input), busy).Err?
    ensures Serve(cfg, w, CreateEvent(actor, input, id, busy, f))
            == (w, Admit(cfg, w.reg, actor, Normalised(input), busy).error)
  {
  }

  /** The text of the call that stops a provision, if one does. */
  function ProvisionFault(f: Faults): Option<string> {
    if !f.volumeCreate.Done? then Some(f.volumeCreate.text) else f.containerCreate
  }

  /** An admitted create fails exactly when Docker fails its volume or its container, and then says so on the record. */
  lemma CreateAnswers(cfg: Config, w: World, actor: string, input: Input, id: string, busy: set<int>, f: Faults)
    requires Inv(w) && id !in w.minted && FreshContainer(w, f)
    requires Admit(cfg, w.reg, actor, Normalised(input), busy).Ok?
    ensures var (w', code) := Serve(cfg, w, CreateEvent(actor, input, id, busy, f));
            CreatedAs(w', code, id, f)
  {
    InstallAnswers(w, RowFor(cfg, Normalised(input), id, actor, Admit(cfg, w.reg, actor, Normalised(input), busy).value), f);
  }

  predicate CreatedAs(w: World, code: int, id: string, f: Faults) {
    && id in w.reg.servers
    && var row := w.reg.servers[id];
       match ProvisionFault(f)
       case None => code == CREATED && row.status == Stopped && row.message == "" && row.containerID == f.newContainer
       case Some(text) =>
         code == SERVER_ERROR && row.status == Error && row.message == "docker: " + text && row.containerID == ""
  }

  /** An insert that loses its ID or port to another request is a conflict, one whose owner is gone an error; neither gets as
      far as Docker. */
  lemma RefusedInsertAnswers(w: World, row: Server, f: Faults)
    requires InsertServer(w.reg, row).Err?
    ensures var (w', code) := Install(w, row, f);
            var taken := row.id in w.reg.servers || Claims(w.reg, row.port);
            && w'.reg == w.reg && w'.host == w.host && w'.minted == w.minted + {row.id}
            && (code == CONFLICT <==> taken) && (code == SERVER_ERROR <==> !taken && row.ownerID !in w.reg.users)
  {
  }

  lemma InstallAnswers(w: World, row: Server, f: Faults)
    requires Inv(w) && row.id !in w.minted && FreshContainer(w, f)
    requires row.port !in ClaimedPorts(w.reg.servers) && row.ownerID in w.reg.users
    requires row.status == Creating && row.message == "" && row.containerID == ""
    ensures var (w', code) := Install(w, row, f); CreatedAs(w', code, row.id, f)
  {
    NoNameConflict(w, row.id);
    ProvisionAnswers(w.host, SpecFor(row), f);
  }

  lemma ProvisionAnswers(h: Host, spec: Spec, f: Faults)
    requires !NameInUse(h, spec.containerName)
    ensures Provision(h, spec, f).1
            == match ProvisionFault(f)
               case None => Ok(f.newContainer)
               case Some(text) => Err(Failed(text))
  {
  }

  // --- renaming ---

  /** An accepted rename sets the trimmed name and nothing else; a name that is blank or too long is refused. */
  lemma RenameAnswers(cfg: Config, w: World, actor: string, id: string, name: Option<string>)
    requires Keyed(w.reg) && MayManage(w.reg, actor, id)
    ensures var (w', code) := Serve(cfg, w, RenameEvent(actor, id, name));
            match name
            case None => w' == w && code == OK
            case Some(text) =>
              if 1 <= ByteLength(TrimSpace(text)) <= 64
              then OnlyRow(w, w', id, w.reg.servers[id].(name := TrimSpace(text))) && w'.host == w.host && code == OK
              else w' == w && code == BAD_REQUEST
  {
  }

  // --- starting ---

  /** The text of the call that stops a start, if one does, in the order in which the calls come. */
  function StartFault(h: Host, row: Server, f: Faults): Option<string> {
    if row.containerID != "" && !f.start.Done? then Some(f.start.text)
    else if row.containerID in h.containers then None
    else if ProvisionFault(f).Some? then ProvisionFault(f)
    else if row.containerID == "" then (if f.start.Done? then None else Some(f.start.text))
    else if f.restart.Done? then None
    else Some(f.restart.text)
  }

  /** A new container is made, and recorded, when the old one is missing and Docker lets the start get that far. */
  predicate StartRebuilds(h: Host, row: Server, f: Faults) {
    && row.containerID !in h.containers
    && (row.containerID != "" ==> f.start.Done?)
    && ProvisionFault(f) == None
  }

  /** A start succeeds exactly when none of its Docker calls fails. Then the server runs in its own container; otherwise the
      record says which text stopped it. Either way only this row changes, in its status, its message and, after a rebuild,
      its container ID. */
  lemma StartAnswers(cfg: Config, w: World, actor: string, id: string, f: Faults)
    requires Inv(w) && FreshContainer(w, f) && MayManage(w.reg, actor, id)
    ensures var (w', code) := Serve(cfg, w, StartEvent(actor, id, f));
            var row := w.reg.servers[id];
            var c := if StartRebuilds(w.host, row, f) then f.newContainer else row.containerID;
            match StartFault(w.host, row, f)
            case None =>
              && code == OK
              && OnlyRow(w, w', id, row.(containerID := c, status := Starting, message := ""))
              && c in w'.host.containers && w'.host.containers[c].running && Backs(w'.reg.servers, w'.host, id, c)
            case Some(text) =>
              && code == SERVER_ERROR
              && OnlyRow(w, w', id, row.(containerID := c, status := Error, message := "docker: " + text))
  {
    var row := w.reg.servers[id];
    assert "" !in w.host.containers && id == row.id;
    if Settled(w.host, row, f) {
      SettledStartAnswers(w, actor, id, f);
    } else {
      NoNameConflict(w, id);
      RebuiltStartAnswers(w, actor, id, f);
    }
  }

  lemma LaunchAnswers(w: World, id: string, c: string, o: Outcome)
    requires Core(w) && id in w.reg.servers && w.reg.servers[id].containerID == c
    requires c in w.host.containers || !o.Done?
    ensures var (w', code) := Launch(w, id, c, o);
            var row := w.reg.servers[id];
            if o.Done?
            then && code == OK && OnlyRow(w, w', id, row.(status := Starting, message := ""))
                 && c in w'.host.containers && w'.host.containers[c].running && Backs(w'.reg.servers, w'.host, id, c)
            else code == SERVER_ERROR && OnlyRow(w, w', id, row.(status := Error, message := "docker: " + o.text))
  {
    if c in w.host.containers {
      var s := OneRecordPerContainer(w, c);
      if !w.host.containers[c].running { NoPortConflict(w, c); }
    }
  }

  lemma SettledStartAnswers(w: World, actor: string, id: string, f: Faults)
    requires Inv(w) && MayManage(w.reg, actor, id) && Settled(w.host, w.reg.servers[id], f)
    ensures var (w', code) := Start(w, actor, id, f);
            var row := w.reg.servers[id];
            if f.start.Done?
            then && code == OK && OnlyRow(w, w', id, row.(status := Starting, message := ""))
                 && row.containerID in w'.host.containers && w'.host.containers[row.containerID].running
                 && Backs(w'.reg.servers, w'.host, id, row.containerID)
            else code == SERVER_ERROR && OnlyRow(w, w', id, row.(status := Error, message := "docker: " + f.start.text))
  {
    LaunchAnswers(w, id, w.reg.servers[id].containerID, f.start);
  }

  lemma RebuildAnswers(w: World, row: Server, f: Faults)
    requires row.id in w.reg.servers && w.reg.servers[row.id] == row && !NameInUse(w.host, ContainerName(row.id))
    ensures var (built, made) := Rebuild(w, row, f);
            match ProvisionFault(f)
            case None =>
              made == Ok(f.newContainer) && OnlyRow(w, built, row.id, row.(containerID := f.newContainer))
              && f.newContainer in built.host.containers
            case Some(text) =>
              made == Err(Failed(text)) && built.reg == w.reg && built.minted == w.minted
  {
  }

  /** A start that rebuilds is a rebuild, then a launch. */
  lemma RebuiltStart(w: World, actor: string, id: string, f: Faults)
    requires Keyed(w.reg) && MayManage(w.reg, actor, id) && !Settled(w.host, w.reg.servers[id], f)
    ensures var (built, made) := Rebuild(w, w.reg.servers[id], f);
            && id in built.reg.servers
            && Start(w, actor, id, f)
               == match made
                  case Err(e) => (Mark(built, id, Error, ErrorText(e)), SERVER_ERROR)
                  case Ok(c) => Launch(built, id, c, if w.reg.servers[id].containerID == "" then f.start else f.restart)
  {
  }

  lemma RebuiltStartAnswers(w: World, actor: string, id: string, f: Faults)
    requires Inv(w) && FreshContainer(w, f) && MayManage(w.reg, actor, id)
    requires !Settled(w.host, w.reg.servers[id], f) && !NameInUse(w.host, ContainerName(id))
    ensures var (w', code) := Start(w, actor, id, f);
            var row := w.reg.servers[id];
            var o := if row.containerID == "" then f.start else f.restart;
            match ProvisionFault(f)
            case Some(text) =>
              code == SERVER_ERROR && OnlyRow(w, w', id, row.(status := Error, message := "docker: " + text))
            case None =>
              if o.Done?
              then && code == OK
                   && OnlyRow(w, w', id, row.(containerID := f.newContainer, status := Starting, message := ""))
                   && f.newContainer in w'.host.containers && w'.host.containers[f.newContainer].running
                   && Backs(w'.reg.servers, w'.host, id, f.newContainer)
              else
                && code == SERVER_ERROR
                && OnlyRow(w, w', id, row.(containerID := f.newContainer, status := Error, message := "docker: " + o.text))
  {
    var row := w.reg.servers[id];
    RebuildKeepsCore(w, row, f);
    RebuildAnswers(w, row, f);
    RebuiltStart(w, actor, id, f);
    var (built, made) := Rebuild(w, row, f);
    if made.Ok? {
      var o := if row.containerID == "" then f.start else f.restart;
      LaunchAnswers(built, id, made.value, o);
      RowsCompose(w, built, Launch(built, id, made.value, o).0, id);
    }
  }

  /** Two changes of one row are one. */
  lemma RowsCompose(w: World, mid: World, w': World, id: string)
    requires id in mid.reg.servers && id in w'.reg.servers
    requires OnlyRow(w, mid, id, mid.reg.servers[id]) && OnlyRow(mid, w', id, w'.reg.servers[id])
    ensures OnlyRow(w, w', id, w'.reg.servers[id])
  {
  }

  // --- stopping ---

  /** What a stop call does to containers. */
  lemma StopCall(h: Host, c: string, o: Outcome)
    ensures var (h', error) := ContainerStop(h, c, o);
            && (error.Some? && error.value.Failed? <==> !o.Done?)
            && (!o.Done? ==> error == Some(Failed(o.text)))
            && h'.containers.Keys == h.containers.Keys && h'.volumes == h.volumes
            && (forall d | d in h.containers && d != c :: h'.containers[d] == h.containers[d])
            && (o.Refused? ==> h' == h)
            && (c in h.containers && !o.Refused? ==> h'.containers[c] == h.containers[c].(running := false))
  {
  }

  /** A stop succeeds exactly when Docker does not fail it, whether or not the container was still there. A failed stop says
      so on the record. */
  lemma StopAnswers(cfg: Config, w: World, actor: string, id: string, f: Faults)
    requires Inv(w) && MayManage(w.reg, actor, id)
    ensures var (w', code) := Serve(cfg, w, StopEvent(actor, id, f));
            var row := w.reg.servers[id];
            && (row.containerID == "" ==> w' == w && code == CONFLICT)
            && (row.containerID != "" && f.stop.Done? ==>
                  code == OK && OnlyRow(w, w', id, row.(status := Stopped, message := "")))
            && (row.containerID != "" && !f.stop.Done? ==>
                  && code == SERVER_ERROR
                  && OnlyRow(w, w', id, row.(status := Error, message := "docker: " + f.stop.text)))
  {
    StopCall(w.host, w.reg.servers[id].containerID, f.stop);
  }

  /** After a stop that succeeded nothing of the server runs; after one that was refused the containers are as they were; and
      no stop touches another container or a volume. */
  lemma StopEffect(cfg: Config, w: World, actor: string, id: string, f: Faults)
    requires Inv(w) && MayManage(w.reg, actor, id)
    ensures var (w', code) := Serve(cfg, w, StopEvent(actor, id, f));
            && (code == OK ==>
                  forall d | d in w'.host.containers && w'.host.containers[d].name == ContainerName(id) ::
                    !w'.host.containers[d].running)
            && (f.stop.Refused? ==> w'.host == w.host)
            && w'.host.containers.Keys == w.host.containers.Keys && w'.host.volumes == w.host.volumes
            && (forall d | d in w.host.containers && d != w.reg.servers[id].containerID ::
                  w'.host.containers[d] == w.host.containers[d])
  {
    var c := w.reg.servers[id].containerID;
    StopCall(w.host, c, f.stop);
    if c != "" && f.stop.Done? { StopStops(w, actor, id, f); }
  }

  // --- deleting ---

  /** The text of the call that stops a delete, if one does. */
  function DeleteFault(row: Server, deleteData: bool, f: Faults): Option<string> {
    if row.containerID == "" then None
    else if !f.remove.Done? then Some(f.remove.text)
    else if deleteData && !f.volumeRemove.Done? then Some(f.volumeRemove.text)
    else None
  }

  /** A delete succeeds exactly when none of its Docker calls fails, whether or not there was anything left to remove. Then
      the row is gone and no other; otherwise the record says which text stopped it. World data goes only on request. */
  lemma DeleteAnswers(cfg: Config, w: World, actor: string, id: string, deleteData: bool, f: Faults)
    requires Inv(w) && MayManage(w.reg, actor, id)
    ensures var (w', code) := Serve(cfg, w, DeleteEvent(actor, id, deleteData, f));
            var row := w.reg.servers[id];
            && (match DeleteFault(row, deleteData, f)
                case None =>
                  && code == NO_CONTENT && w'.reg == w.reg.(servers := w.reg.servers - {id}) && w'.minted == w.minted
                  && w'.host.containers == w.host.containers - {row.containerID}
                case Some(text) =>
                  && code == SERVER_ERROR
                  && OnlyRow(w, w', id, row.(status := Error, message := "docker: " + text)))
            && (!deleteData ==> w'.host.volumes == w.host.volumes)
            && (deleteData && code == NO_CONTENT && row.containerID != "" ==>
                  w'.host.volumes == w.host.volumes - {VolumeName(id)})
  {
    var c := w.reg.servers[id].containerID;
    DeleteByTeardown(w, actor, id, deleteData, f);
    if c != "" {
      WithoutItsContainerNothingIsLeft(w, id, WithoutContainer(w.host, c));
      TeardownAnswers(w.host, c, VolumeName(id), deleteData, f);
    } else {
      assert w.host.containers - {c} == w.host.containers;
    }
  }

  /** A delete is a teardown, if there is a container ID to tear down, and then its row or its status. */
  lemma DeleteByTeardown(w: World, actor: string, id: string, deleteData: bool, f: Faults)
    requires Keyed(w.reg) && MayManage(w.reg, actor, id)
    ensures var row := w.reg.servers[id];
            var (h, error) := if row.containerID == "" then (w.host, None)
                              else Teardown(w.host, row.containerID, VolumeName(id), deleteData, f);
            Delete(w, actor, id, deleteData, f)
            == match error
               case Some(e) =>
                 var failed := row.(status := Error, message := ErrorText(e));
                 (w.(host := h, reg := w.reg.(servers := w.reg.servers[id := failed])), SERVER_ERROR)
               case None => (w.(host := h, reg := w.reg.(servers := w.reg.servers - {id})), NO_CONTENT)
  {
  }

  /** A teardown whose volume nothing else holds on to fails exactly when Docker fails one of its calls. */
  lemma TeardownAnswers(h: Host, c: string, volume: string, deleteData: bool, f: Faults)
    requires !VolumeInUse(WithoutContainer(h, c), volume)
    ensures var (h', error) := Teardown(h, c, volume, deleteData, f);
            && (!f.remove.Done? ==> error == Some(Failed(f.remove.text)))
            && (f.remove.Done? && deleteData && !f.volumeRemove.Done? ==> error == Some(Failed(f.volumeRemove.text)))
            && (f.remove.Done? && (deleteData ==> f.volumeRemove.Done?) ==>
                  && error == None && h'.containers == h.containers - {c}
                  && (deleteData ==> h'.volumes == h.volumes - {volume}))
            && (!deleteData ==> h'.volumes == h.volumes)
  {
    assert c !in h.containers ==> h.containers - {c} == h.containers;
    assert volume !in h.volumes ==> h.volumes - {volume} == h.volumes;
  }

  // --- accounts ---

  predicate GoodAccount(username: string, password: Password) {
    GoodUsername(TrimSpace(username)) && GoodPassword(password.text)
  }

  /** A new account fails for bad credentials, for a hash that cannot be made, or for an ID or name that is taken; otherwise
      it is added with exactly the role asked for. */
  lemma AddAccountAnswers(w: World, id: string, username: string, password: Password, isAdmin: bool)
    ensures var (w', code) := AddAccount(w, id, username, password, isAdmin);
            var taken := id in w.reg.users || exists v :: v in w.reg.users && w.reg.users[v].username == TrimSpace(username);
            && (code == BAD_REQUEST <==> !GoodAccount(username, password))
            && (code == SERVER_ERROR <==> GoodAccount(username, password) && password.hash == None)
            && (code == CONFLICT <==> GoodAccount(username, password) && password.hash.Some? && taken)
            && (code == CREATED <==> GoodAccount(username, password) && password.hash.Some? && !taken)
            && (code == CREATED ==>
                  w'.reg == w.reg.(users := w.reg.users[id := User(id, TrimSpace(username), password.hash.value, isAdmin)]))
            && (code != CREATED ==> w'.reg == w.reg)
            && w'.host == w.host && w'.minted == if code in {CONFLICT, CREATED} then w.minted + {id} else w.minted
  {
  }

  /** Registration makes an admin of the first account, and of no later one. It succeeds exactly when it is open, the
      credentials are good, hashing works, and ID and name are free. */
  lemma RegisterAnswers(cfg: Config, w: World, id: string, username: string, password: Password)
    requires Keyed(w.reg)
    ensures var (w', code) := Serve(cfg, w, RegisterEvent(id, username, password));
            var taken := id in w.reg.users || exists v :: v in w.reg.users && w.reg.users[v].username == TrimSpace(username);
            && (code == FORBIDDEN <==> !cfg.allowRegistration)
            && (code == CREATED <==>
                  cfg.allowRegistration && GoodAccount(username, password) && password.hash.Some? && !taken)
            && (code == BAD_REQUEST <==> cfg.allowRegistration && !GoodAccount(username, password))
            && (code == SERVER_ERROR <==>
                  cfg.allowRegistration && GoodAccount(username, password) && password.hash == None)
            && (code == CREATED ==>
                  && w'.reg.servers == w.reg.servers
                  && w'.reg.users
                     == w.reg.users[id := User(id, TrimSpace(username), password.hash.value, w.reg.users == map[])]
                  && Admins(w'.reg.users) == if w.reg.users == map[] then {id} else Admins(w.reg.users))
            && (code != CREATED ==> w'.reg == w.reg)
            && w'.host == w.host
  {
    AddAccountAnswers(w, id, username, password, w.reg.users == map[]);
  }

  /** An admin's new account has exactly the role that was asked for. */
  lemma NewUserAnswers(
    cfg: Config, w: World, actor: string, id: string, username: string, password: Password, isAdmin: bool)
    requires Keyed(w.reg)
    ensures var (w', code) := Serve(cfg, w, NewUserEvent(actor, id, username, password, isAdmin));
            var taken := id in w.reg.users || exists v :: v in w.reg.users && w.reg.users[v].username == TrimSpace(username);
            && (code == UNAUTHORIZED <==> actor !in w.reg.users)
            && (code == FORBIDDEN <==> actor in w.reg.users && actor !in Admins(w.reg.users))
            && (code == CREATED <==>
                  actor in Admins(w.reg.users) && GoodAccount(username, password) && password.hash.Some? && !taken)
            && (code == BAD_REQUEST <==> actor in Admins(w.reg.users) && !GoodAccount(username, password))
            && (code == CREATED ==>
                  w'.reg == w.reg.(users := w.reg.users[id := User(id, TrimSpace(username), password.hash.value, isAdmin)]))
            && (code != CREATED ==> w'.reg == w.reg)
            && w'.host == w.host
  {
    AddAccountAnswers(w, id, username, password, isAdmin);
  }

  /** Seeding adds one admin to an empty table, if there is a name and a password that can be hashed, and nothing else. */
  lemma SeedAnswers(cfg: Config, w: World, id: string, username: string, password: Password)
    requires Keyed(w.reg)
    ensures var w' := Serve(cfg, w, SeedEvent(id, username, password)).0;
            var seeds := w.reg.users == map[] && username != "" && password.text != "" && password.hash.Some?;
            && w'.reg.servers == w.reg.servers && w'.host == w.host
            && (!seeds ==> w'.reg.users == w.reg.users)
            && (seeds ==>
                  w'.reg.users.Keys == {id} && w'.reg.users[id] == User(id, username, password.hash.value, true))
  {
  }

  /** Who may change an account, and when the role part is refused; then nothing has changed. */
  lemma UpdateUserRefusals(
    cfg: Config, w: World, actor: string, target: string, isAdmin: Option<bool>, password: Option<Password>)
    requires Keyed(w.reg)
    ensures var (w', code) := Serve(cfg, w, UpdateUserEvent(actor, target, isAdmin, password));
            && (code == UNAUTHORIZED <==> actor !in w.reg.users)
            && (code == FORBIDDEN <==> actor in w.reg.users && actor !in Admins(w.reg.users))
            && (code == NOT_FOUND <==> actor in Admins(w.reg.users) && target !in w.reg.users)
            && (code == CONFLICT <==> actor in Admins(w.reg.users) && target == actor && isAdmin == Some(false))
            && (code in {UNAUTHORIZED, FORBIDDEN, NOT_FOUND, CONFLICT} ==> w' == w)
  {
    RequireAdminAnswers(w.reg, actor);
    if actor in Admins(w.reg.users) && target in w.reg.users && isAdmin.Some? {
      SetRoleAnswers(w, actor, target, isAdmin.value);
    }
  }

  /** The account after its role has been set, and its password reset if that worked. */
  function Updated(u: User, isAdmin: Option<bool>, password: Option<Password>, reset: bool): User {
    u.(isAdmin := if isAdmin.Some? then isAdmin.value else u.isAdmin,
       passwordHash := if reset && password.Some? && password.value.hash.Some? then password.value.hash.value
                       else u.passwordHash)
  }

  /** Otherwise the role is set, and the password too unless it is refused. */
  lemma UpdateUserAnswers(
    cfg: Config, w: World, actor: string, target: string, isAdmin: Option<bool>, password: Option<Password>)
    requires Keyed(w.reg) && actor in Admins(w.reg.users) && target in w.reg.users
    requires !(target == actor && isAdmin == Some(false))
    ensures var (w', code) := Serve(cfg, w, UpdateUserEvent(actor, target, isAdmin, password));
            var u := w.reg.users[target];
            var good := password.Some? ==> GoodAccount(u.username, password.value);
            && (code == BAD_REQUEST <==> !good)
            && (code == SERVER_ERROR <==> good && password.Some? && password.value.hash == None)
            && (code == OK <==> good && (password.Some? ==> password.value.hash.Some?))
            && w' == w.(reg := w.reg.(users := w.reg.users[target := Updated(u, isAdmin, password, code == OK)]))
  {
    RoleThenPassword(w, actor, target, isAdmin, password);
    var w1 := w.(reg := w.reg.(users := w.reg.users[target := Updated(w.reg.users[target], isAdmin, None, false)]));
    if password.Some? { ResetAnswers(w1, target, password.value); }
  }

  lemma RoleThenPassword(w: World, actor: string, target: string, isAdmin: Option<bool>, password: Option<Password>)
    requires actor in Admins(w.reg.users) && target in w.reg.users && !(target == actor && isAdmin == Some(false))
    ensures var w1 := w.(reg := w.reg.(users := w.reg.users[target := Updated(w.reg.users[target], isAdmin, None, false)]));
            UpdateUser(w, actor, target, isAdmin, password)
            == if password == None then (w1, OK) else ResetPassword(w1, target, password.value)
  {
    RequireAdminAnswers(w.reg, actor);
    assert w.reg.users[target := w.reg.users[target]] == w.reg.users;
    if isAdmin.Some? { SetRoleAnswers(w, actor, target, isAdmin.value); }
  }

  lemma ResetAnswers(w: World, target: string, password: Password)
    requires target in w.reg.users
    ensures var u := w.reg.users[target];
            ResetPassword(w, target, password)
            == if !GoodAccount(u.username, password) then (w, BAD_REQUEST)
               else if password.hash == None then (w, SERVER_ERROR)
               else (w.(reg := w.reg.(users := w.reg.users[target := u.(passwordHash := password.hash.value)])), OK)
  {
  }

  lemma SetRoleAnswers(w: World, actor: string, target: string, isAdmin: bool)
    requires actor in Admins(w.reg.users) && target in w.reg.users
    ensures SetRole(w, actor, target, isAdmin)
            == if target == actor && !isAdmin then (w, CONFLICT)
               else (w.(reg := w.reg.(users := w.reg.users[target := w.reg.users[target].(isAdmin := isAdmin)])), OK)
  {
    if target != actor { LastAdminRefusalIsUnreachable(w, actor, target); }
    if isAdmin == w.reg.users[target].isAdmin {
      assert w.reg.users[target := w.reg.users[target]] == w.reg.users;
    }
  }

  /** Who may delete an account, and what becomes of its servers. */
  lemma RemoveUserAnswers(cfg: Config, w: World, actor: string, target: string, reassign: bool)
    requires Inv(w)
    ensures var (w', code) := Serve(cfg, w, RemoveUserEvent(actor, target, reassign));
            var owns := exists s :: s in w.reg.servers && w.reg.servers[s].ownerID == target;
            && (code == UNAUTHORIZED <==> actor !in w.reg.users)
            && (code == FORBIDDEN <==> actor in w.reg.users && actor !in Admins(w.reg.users))
            && (code == NOT_FOUND <==> actor in Admins(w.reg.users) && target !in w.reg.users)
            && (code == CONFLICT <==>
                  actor in Admins(w.reg.users) && target in w.reg.users && (target == actor || (owns && !reassign)))
            && (code == NO_CONTENT <==>
                  actor in Admins(w.reg.users) && target in w.reg.users && target != actor && (owns ==> reassign))
            && (code != NO_CONTENT ==> w' == w)
            && (code == NO_CONTENT ==>
                  && w'.host == w.host && w'.minted == w.minted && w'.reg.users == w.reg.users - {target}
                  && w'.reg.servers.Keys == w.reg.servers.Keys
                  && forall s | s in w.reg.servers ::
                       w'.reg.servers[s]
                       == w.reg.servers[s].(ownerID := if w.reg.servers[s].ownerID == target then actor
                                                       else w.reg.servers[s].ownerID))
  {
    RequireAdminAnswers(w.reg, actor);
    if actor in Admins(w.reg.users) && target in w.reg.users && target != actor {
      LastAdminRefusalIsUnreachable(w, actor, target);
      ReassignmentShieldsRows(w.reg, target, actor);
      OwnsSomething(w.reg.servers, target);
    }
  }

  lemma OwnsSomething(servers: map<string, Server>, owner: string)
    ensures Owned(servers, owner) != {} <==> exists s :: s in servers && servers[s].ownerID == owner
  {
    forall s | s in servers && servers[s].ownerID == owner ensures s in Owned(servers, owner) {}
    if Owned(servers, owner) != {} { var s :| s in Owned(servers, owner); }
  }
}
