/** What `deleteData=true` promises about world data, over every history of the platform. */
module WorldData {
  import opened Text
  import opened Models
  import opened Credential
  import opened Registries
  import opened DockerHosts
  import opened Ports
  import opened Lifecycle
  import opened Invariant
  import opened Guarantees

  /** Volumes belong to IDs that have been minted. */
  ghost predicate NoStrayVolumes(h: Host, minted: set<string>) {
    forall id :: VolumeName(id) in h.volumes ==> id in minted
  }

  predicate BlankVolume(h: Host, id: string) {
    VolumeName(id) in h.volumes ==> h.volumes[VolumeName(id)] == []
  }

  /** Nothing has ever been played on a server that never had a container. */
  ghost predicate BlankWithoutID(servers: map<string, Server>, h: Host) {
    forall s | s in servers && servers[s].containerID == "" :: BlankVolume(h, s)
  }

  ghost predicate Blank(w: World) {
    NoStrayVolumes(w.host, w.minted) && BlankWithoutID(w.reg.servers, w.host)
  }

  /** `h'` has lost volumes at most, or gained the blank volume of `id`. */
  ghost predicate OnlyBlankAdded(h: Host, h': Host, id: string) {
    forall v | v in h'.volumes ::
      if v in h.volumes then h'.volumes[v] == h.volumes[v] else v == VolumeName(id) && h'.volumes[v] == []
  }

  lemma ProvisionAddsBlank(h: Host, spec: Spec, f: Faults, id: string)
    requires spec.volumeName == VolumeName(id)
    ensures OnlyBlankAdded(h, Provision(h, spec, f).0, id)
  {
  }

  lemma TeardownAddsNothing(h: Host, c: string, volume: string, data: bool, f: Faults, id: string)
    ensures OnlyBlankAdded(h, Teardown(h, c, volume, data, f).0, id)
  {
  }

  /** Rows may come to name a container, and go; a new row starts out on a blank volume of its own. */
  lemma StepKeepsBlank(w: World, w': World, id: string)
    requires Blank(w) && OnlyBlankAdded(w.host, w'.host, id)
    requires w.minted <= w'.minted && (w'.host.volumes.Keys <= w.host.volumes.Keys || id in w'.minted)
    requires forall s | s in w'.reg.servers && w'.reg.servers[s].containerID == "" ::
               if s in w.reg.servers then w.reg.servers[s].containerID == "" else s == id && id !in w.minted
    ensures Blank(w')
  {
    forall s | VolumeName(s) in w'.host.volumes ensures s in w'.minted {
      NamesAreInjective(s, id);
    }
    forall s | s in w'.reg.servers && w'.reg.servers[s].containerID == "" ensures BlankVolume(w'.host, s) {
      if s in w.reg.servers { assert BlankVolume(w.host, s); }
    }
  }

  lemma RowsKeepBlank(w: World, w': World)
    requires Blank(w) && w'.host.volumes == w.host.volumes && w.minted <= w'.minted
    requires w'.reg.servers.Keys <= w.reg.servers.Keys
    requires forall s | s in w'.reg.servers :: w'.reg.servers[s].containerID == w.reg.servers[s].containerID
    ensures Blank(w')
  {
    forall s | s in w'.reg.servers && w'.reg.servers[s].containerID == "" ensures BlankVolume(w'.host, s) {
      assert BlankVolume(w.host, s);
    }
  }

  lemma InstallKeepsBlank(w: World, row: Server, f: Faults)
    requires Blank(w) && row.id !in w.minted && w.reg.servers.Keys <= w.minted
    ensures Blank(Install(w, row, f).0)
  {
    if InsertServer(w.reg, row).Ok? {
      ProvisionAddsBlank(w.host, SpecFor(row), f, row.id);
    }
    StepKeepsBlank(w, Install(w, row, f).0, row.id);
  }

  lemma LaunchKeepsBlank(w: World, id: string, c: string, o: Outcome)
    requires Blank(w) && id in w.reg.servers
    ensures Blank(Launch(w, id, c, o).0)
  {
    RowsKeepBlank(w, Launch(w, id, c, o).0);
  }

  lemma RebuildKeepsBlank(w: World, srv: Server, f: Faults)
    requires Blank(w) && srv.id in w.reg.servers && srv.id in w.minted && f.newContainer != ""
    requires w.reg.servers[srv.id] == srv
    ensures Blank(Rebuild(w, srv, f).0)
  {
    ProvisionAddsBlank(w.host, SpecFor(srv), f, srv.id);
    StepKeepsBlank(w, Rebuild(w, srv, f).0, srv.id);
  }

  lemma StartKeepsBlank(w: World, actor: string, id: string, f: Faults)
    requires Inv(w) && Blank(w) && f.newContainer != ""
    ensures Blank(Start(w, actor, id, f).0)
  {
    var found := Lookup(w.reg, actor, id);
    if found.Ok? {
      var srv := found.value;
      if Settled(w.host, srv, f) {
        LaunchKeepsBlank(w, id, srv.containerID, f.start);
      } else {
        RebuildKeepsBlank(w, srv, f);
        var (built, made) := Rebuild(w, srv, f);
        match made
        case Ok(c) => LaunchKeepsBlank(built, id, c, AfterRebuild(srv, f));
        case Err(e) => RowsKeepBlank(built, Mark(built, id, Error, ErrorText(e)));
      }
    }
  }

  lemma StopKeepsBlank(w: World, actor: string, id: string, f: Faults)
    requires Blank(w)
    ensures Blank(Stop(w, actor, id, f).0)
  {
    RowsKeepBlank(w, Stop(w, actor, id, f).0);
  }

  lemma DeleteOnlyTakes(w: World, actor: string, id: string, deleteData: bool, f: Faults)
    requires Keyed(w.reg) && Lookup(w.reg, actor, id).Ok?
    ensures var w' := Delete(w, actor, id, deleteData, f).0;
            && w'.minted == w.minted && OnlyBlankAdded(w.host, w'.host, id)
            && w'.reg.servers.Keys <= w.reg.servers.Keys
            && forall s | s in w'.reg.servers :: w'.reg.servers[s].containerID == w.reg.servers[s].containerID
  {
    TeardownAddsNothing(w.host, w.reg.servers[id].containerID, VolumeName(id), deleteData, f, id);
  }

  lemma DeleteKeepsBlank(w: World, actor: string, id: string, deleteData: bool, f: Faults)
    requires Inv(w) && Blank(w)
    ensures Blank(Delete(w, actor, id, deleteData, f).0)
  {
    if Lookup(w.reg, actor, id).Ok? {
      DeleteOnlyTakes(w, actor, id, deleteData, f);
      StepKeepsBlank(w, Delete(w, actor, id, deleteData, f).0, id);
    }
  }

  /** Only a container is played on, and the record it belongs to names it. */
  lemma PlayKeepsBlank(w: World, c: string, chunk: string)
    requires Inv(w) && Blank(w)
    ensures Blank(w.(host := Saved(w.host, c, chunk)))
  {
    if c in w.host.containers {
      var t := OneRecordPerContainer(w, c);
      forall s | s in w.reg.servers && w.reg.servers[s].containerID == ""
        ensures BlankVolume(Saved(w.host, c, chunk), s)
      {
        assert BlankVolume(w.host, s);
        NamesAreInjective(s, t);
      }
    }
  }

  lemma RemoveUserKeepsBlank(w: World, actor: string, target: string, reassign: bool)
    requires Blank(w)
    ensures Blank(RemoveUser(w, actor, target, reassign).0)
  {
    if RemoveUser(w, actor, target, reassign).1 == NO_CONTENT {
      ReassignmentShieldsRows(w.reg, target, actor);
    }
    RowsKeepBlank(w, RemoveUser(w, actor, target, reassign).0);
  }

  lemma RenameKeepsBlank(w: World, actor: string, id: string, name: Option<string>)
    requires Blank(w)
    ensures Blank(Rename(w, actor, id, name).0)
  {
    RowsKeepBlank(w, Rename(w, actor, id, name).0);
  }

  lemma AccountsKeepBlank(cfg: Config, w: World, e: Event)
    requires Blank(w) && Keyed(w.reg)
    requires e.SeedEvent? || e.RegisterEvent? || e.NewUserEvent? || e.UpdateUserEvent?
    ensures Blank(Serve(cfg, w, e).0)
  {
    AccountsKeepRows(cfg, w, e);
    RowsKeepBlank(w, Serve(cfg, w, e).0);
  }

  /** Coming and going containers do not write. */
  lemma OutsideKeepsBlank(w: World, e: Event)
    requires Blank(w) && !e.Play?
    ensures Blank(w.(host := Outside(w.host, e)))
  {
    RowsKeepBlank(w, w.(host := Outside(w.host, e)));
  }

  lemma ServeKeepsBlank(cfg: Config, w: World, e: Event)
    requires Inv(w) && Blank(w) && Fresh(w, e)
    ensures Blank(Serve(cfg, w, e).0)
  {
    match e
    case CreateEvent(actor, input, id, busy, f) =>
      var v := Normalised(input);
      var admitted := Admit(cfg, w.reg, actor, v, busy);
      if admitted.Ok? { InstallKeepsBlank(w, RowFor(cfg, v, id, actor, admitted.value), f); }
    case StartEvent(actor, id, f) => StartKeepsBlank(w, actor, id, f);
    case StopEvent(actor, id, f) => StopKeepsBlank(w, actor, id, f);
    case DeleteEvent(actor, id, deleteData, f) => DeleteKeepsBlank(w, actor, id, deleteData, f);
    case RemoveUserEvent(actor, target, reassign) => RemoveUserKeepsBlank(w, actor, target, reassign);
    case Play(c, chunk) => PlayKeepsBlank(w, c, chunk);
    case RenameEvent(actor, id, name) => RenameKeepsBlank(w, actor, id, name);
    case SeedEvent(_, _, _) => AccountsKeepBlank(cfg, w, e);
    case RegisterEvent(_, _, _) => AccountsKeepBlank(cfg, w, e);
    case NewUserEvent(_, _, _, _, _) => AccountsKeepBlank(cfg, w, e);
    case UpdateUserEvent(_, _, _, _) => AccountsKeepBlank(cfg, w, e);
    case _ => OutsideKeepsBlank(w, e);
  }

  lemma {:induction false} RunKeepsBlank(cfg: Config, w: World, run: seq<Event>)
    requires Inv(w) && Blank(w) && FreshRun(cfg, w, run)
    ensures Blank(After(cfg, w, run))
    decreases |run|
  {
    if run != [] {
      ServeKeepsInv(cfg, w, run[0]);
      ServeKeepsBlank(cfg, w, run[0]);
      RunKeepsBlank(cfg, Serve(cfg, w, run[0]).0, run[1..]);
    }
  }

  /** In every reachable world a record without a container ID has at most a blank volume. */
  lemma ReachedIsBlank(cfg: Config, run: seq<Event>)
    requires History(cfg, run)
    ensures BlankWithoutID(Reached(cfg, run).reg.servers, Reached(cfg, run).host)
  {
    EmptyIsSound();
    RunKeepsBlank(cfg, EMPTY, run);
  }

  lemma TeardownTakesVolume(h: Host, c: string, volume: string, f: Faults)
    requires Teardown(h, c, volume, true, f).1 == None
    ensures volume !in Teardown(h, c, volume, true, f).0.volumes
  {
  }

  lemma CompletedDelete(w: World, actor: string, id: string, f: Faults)
    requires Keyed(w.reg) && Delete(w, actor, id, true, f).1 == NO_CONTENT
    ensures id in w.reg.servers
    ensures var h := Delete(w, actor, id, true, f).0.host;
            if w.reg.servers[id].containerID == "" then h == w.host else VolumeName(id) !in h.volumes
  {
    var c := w.reg.servers[id].containerID;
    if c != "" { TeardownTakesVolume(w.host, c, VolumeName(id), f); }
  }

  /** A delete with deleteData=true that reports success leaves nothing of the world behind, in every reachable world and
      whatever Docker did: its volume is gone, or it stays and nothing was ever written to it. It stays exactly when it
      was there and the record named no container. */
  lemma CompletedDeleteLeavesNoWorld(cfg: Config, run: seq<Event>, actor: string, id: string, f: Faults)
    requires History(cfg, run)
    requires Delete(Reached(cfg, run), actor, id, true, f).1 == NO_CONTENT
    ensures var w := Reached(cfg, run);
            var h := Delete(w, actor, id, true, f).0.host;
            && id in w.reg.servers
            && BlankVolume(h, id)
            && (VolumeName(id) in h.volumes <==> VolumeName(id) in w.host.volumes && w.reg.servers[id].containerID == "")
  {
    ReachedIsSound(cfg, run);
    ReachedIsBlank(cfg, run);
    CompletedDelete(Reached(cfg, run), actor, id, f);
  }

  // --- a volume that stays ---

  const CONFIG := Config(1, 25565, 25565, false, "2G", 0.0, "", true)

  /** Registers, then asks for a server whose container Docker refuses to make. */
  function Attempted(f: Faults): seq<Event> {
    [RegisterEvent("u", "alex", Password("password", Some(""))),
     CreateEvent("u", Input("world", "", "", "", "", "", 0.0), "s", {}, f)]
  }

  lemma {:induction false} ByteLengthBounds(s: string)
    ensures |s| <= ByteLength(s) <= 4 * |s|
  {
    if s != "" { ByteLengthBounds(s[1..]); }
  }

  const ALEX := User("u", "alex", "", true)

  lemma AlexIsGood()
    ensures TrimSpace("alex") == "alex" && GoodUsername("alex") && GoodPassword("password")
  {
    TrimSpaceOfTrimmed("alex");
    ByteLengthBounds("alex");
    ByteLengthBounds("password");
  }

  lemma AlexIsFirst()
    ensures InsertUser(EMPTY.reg, ALEX) == Ok(Registry(map["u" := ALEX], map[]))
  {
    var none: map<string, User> := map[];
    assert none["u" := ALEX] == map["u" := ALEX];
  }

  const ALEX_ALONE := World(Registry(map["u" := ALEX], map[]), Host(map[], map[], {}), {"u"})

  lemma GoodAccountIsAdded(w: World, u: User, text: string, reg: Registry)
    requires TrimSpace(u.username) == u.username && GoodUsername(u.username) && GoodPassword(text)
    requires InsertUser(w.reg, u) == Ok(reg)
    ensures AddAccount(w, u.id, u.username, Password(text, Some(u.passwordHash)), u.isAdmin)
            == (World(reg, w.host, w.minted + {u.id}), CREATED)
  {
  }

  lemma RegisterAlex()
    ensures Register(CONFIG, EMPTY, "u", "alex", Password("password", Some(""))) == (ALEX_ALONE, CREATED)
  {
    AlexIsGood();
    AlexIsFirst();
    GoodAccountIsAdded(EMPTY, ALEX, "password", Registry(map["u" := ALEX], map[]));
    assert EMPTY.minted + {"u"} == {"u"};
  }

  lemma WorldIsAdmitted(w: World)
    requires w.reg == Registry(map["u" := ALEX], map[])
    ensures Admit(CONFIG, w.reg, "u", Normalised(Input("world", "", "", "", "", "", 0.0)), {}) == Ok(25565)
  {
    TrimSpaceOfTrimmed("world");
    TrimSpaceOfTrimmed(LATEST);
    ByteLengthBounds("world");
    assert TrimSpace("") == "";
    assert ClaimedPorts(w.reg.servers) == {};
  }

  lemma CreateFails(w: World, f: Faults)
    requires w.reg == Registry(map["u" := ALEX], map[]) && w.host == Host(map[], map[], {})
    requires f.volumeCreate.Done? && f.containerCreate.Some?
    ensures var w' := Create(CONFIG, w, "u", Input("world", "", "", "", "", "", 0.0), "s", {}, f).0;
            && w'.reg.users == w.reg.users && w'.reg.servers.Keys == {"s"}
            && w'.reg.servers["s"].id == "s" && w'.reg.servers["s"].containerID == ""
            && VolumeName("s") in w'.host.volumes
  {
    WorldIsAdmitted(w);
    assert ClaimedPorts(w.reg.servers) == {};
  }

  lemma DeleteLeaves(w: World, f: Faults)
    requires w.reg.users == map["u" := ALEX] && w.reg.servers.Keys == {"s"}
    requires w.reg.servers["s"].id == "s" && w.reg.servers["s"].containerID == ""
    ensures var (w', code) := Delete(w, "u", "s", true, f);
            code == NO_CONTENT && w'.reg.servers == map[] && w'.host == w.host
  {
    assert w.reg.servers - {"s"} == map[];
  }

  lemma OneEvent(cfg: Config, w: World, e: Event)
    requires Inv(w) && Fresh(w, e)
    ensures FreshRun(cfg, w, [e]) && After(cfg, w, [e]) == Serve(cfg, w, e).0
  {
    ServeKeepsInv(cfg, w, e);
    assert [e][1..] == [];
    assert FreshRun(cfg, Serve(cfg, w, e).0, []) && After(cfg, Serve(cfg, w, e).0, []) == Serve(cfg, w, e).0;
  }

  lemma TwoEvents(cfg: Config, a: Event, b: Event)
    requires Fresh(EMPTY, a) && Fresh(Serve(cfg, EMPTY, a).0, b) && Inv(EMPTY) && Inv(Serve(cfg, EMPTY, a).0)
    ensures History(cfg, [a, b]) && Reached(cfg, [a, b]) == Serve(cfg, Serve(cfg, EMPTY, a).0, b).0
  {
    OneEvent(cfg, Serve(cfg, EMPTY, a).0, b);
    assert [a, b][1..] == [b];
  }

  lemma AttemptedHistory(f: Faults)
    requires f.newContainer == "c"
    ensures History(CONFIG, Attempted(f))
    ensures Reached(CONFIG, Attempted(f))
            == Create(CONFIG, ALEX_ALONE, "u", Input("world", "", "", "", "", "", 0.0), "s", {}, f).0
  {
    var run := Attempted(f);
    EmptyIsSound();
    RegisterAlex();
    ServeKeepsInv(CONFIG, EMPTY, run[0]);
    TwoEvents(CONFIG, run[0], run[1]);
  }

  /** A whole history after which a delete with deleteData=true leaves its volume, blank and with nothing left to name it:
      the create made the volume and then failed, so the record names no container and the delete never asks Docker. */
  lemma DeleteCanLeakVolume() returns (run: seq<Event>, f: Faults)
    ensures History(CONFIG, run) && FaultFree(f)
    ensures var (w', code) := Delete(Reached(CONFIG, run), "u", "s", true, f);
            code == NO_CONTENT && w'.reg.servers == map[] && VolumeName("s") in w'.host.volumes
  {
    f := Faults(Done, None, "c", Done, Done, Done, Done, Done);
    var failing := f.(containerCreate := Some("no such image"));
    run := Attempted(failing);
    AttemptedHistory(failing);
    CreateFails(ALEX_ALONE, failing);
    DeleteLeaves(Reached(CONFIG, run), f);
  }
}
