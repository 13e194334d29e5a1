/** The views of a request agree: served on its own, a request makes one of the runs of the interleaved models
    (`Durability`, `CreateRace`, `AdminRace`) and ends where its step in `Lifecycle` says. */
module SoloRuns {
  import opened Text
  import opened Credential
  import opened Models
  import opened Registries
  import opened DockerHosts
  import opened Ports
  import opened Durability
  import AdminRace
  import CreateRace
  import Invariant
  import Lifecycle

  function ContainerIDs(servers: map<string, Server>): map<string, string> {
    map s | s in servers :: servers[s].containerID
  }

  /** A world between requests, as the interleaved model sees it. */
  function Resting(w: Lifecycle.World): State {
    State(ContainerIDs(w.reg.servers), w.host, map[])
  }

  /** One request in flight. */
  function Flying(rows: map<string, string>, h: Host, req: Request, call: Call): State {
    State(rows, h, map[0 := Proc(req, call)])
  }

  function Exec(s: State, run: seq<Step>): State
    decreases |run|
  {
    if run == [] then s else Exec(Next(s, run[0]), run[1..])
  }

  lemma {:induction false} ExecIsAt(s: State, run: seq<Step>, n: nat)
    requires n <= |run|
    ensures Exec(At(s, run, n), run[n..]) == Exec(s, run)
  {
    if n == 0 {
      assert run[0..] == run;
    } else {
      ExecIsAt(s, run, n - 1);
      assert run[n - 1..][0] == run[n - 1] && run[n - 1..][1..] == run[n..];
    }
  }

  // --- which runs are a request served alone ---

  /** What the world has in store for one request: Docker's decisions, the port on the record, and what becomes of the write
      of a new container's ID. */
  datatype Script = Script(f: Faults, port: int, save: Outcome)

  /** A container create as `failure` decides it. */
  function CreateOutcome(failure: Option<string>): Outcome {
    if failure.Some? then Refused(failure.value) else Done
  }

  /** What the script decides about a call. Every statement but the write of the ID succeeds. */
  function Decision(call: Call, sc: Script): Outcome {
    match call
    case MakeVolume(_) => sc.f.volumeCreate
    case MakeContainer(_) => CreateOutcome(sc.f.containerCreate)
    case SaveContainer(_, _) => sc.save
    case Launch(_, rebuilt) => if rebuilt then sc.f.restart else sc.f.start
    case ClearStale(_) => sc.f.remove
    case Halt(_) => sc.f.stop
    case RemoveContainer(_) => sc.f.remove
    case RemoveVolume => sc.f.volumeRemove
    case _ => Done
  }

  /** The step is the next call of the request in slot 0, met as the script says. */
  predicate Obeys(s: State, step: Step, sc: Script) {
    && step.Do? && step.pid == 0 && 0 in s.procs
    && step.outcome == Decision(s.procs[0].call, sc)
    && (s.procs[0].call.MakeContainer? ==> step.newContainer == sc.f.newContainer && step.port == sc.port)
  }

  predicate Follows(s: State, run: seq<Step>, sc: Script)
    decreases |run|
  {
    run == [] || (Obeys(s, run[0], sc) && Follows(Next(s, run[0]), run[1..], sc))
  }

  /** Nothing happens but this request: it begins, and every further step is its own next call. */
  predicate Serves(s: State, req: Request, run: seq<Step>, sc: Script) {
    |run| > 0 && run[0] == Begin(0, req) && Follows(Next(s, run[0]), run[1..], sc)
  }

  lemma Single(s: State, step: Step, sc: Script)
    ensures Exec(s, [step]) == Next(s, step)
    ensures Obeys(s, step, sc) ==> Follows(s, [step], sc)
  {
    assert [step][1..] == [];
  }

  lemma Pair(s: State, a: Step, b: Step, sc: Script)
    ensures Exec(s, [a, b]) == Next(Next(s, a), b)
    ensures Obeys(s, a, sc) && Obeys(Next(s, a), b, sc) ==> Follows(s, [a, b], sc)
  {
    assert [a, b][1..] == [b];
    Single(Next(s, a), b, sc);
  }

  lemma {:induction false} Concat(s: State, a: seq<Step>, b: seq<Step>, sc: Script)
    ensures Exec(s, a + b) == Exec(Exec(s, a), b)
    ensures Follows(s, a, sc) && Follows(Exec(s, a), b, sc) ==> Follows(s, a + b, sc)
    decreases |a|
  {
    if a == [] {
      assert a + b == b;
    } else {
      assert (a + b)[0] == a[0] && (a + b)[1..] == a[1..] + b;
      Concat(Next(s, a[0]), a[1..], b, sc);
    }
  }

  // --- single calls ---

  lemma Moves(rows: map<string, string>, h: Host, req: Request, call: Call, o: Outcome, c: string, port: int)
    requires c !in h.issued
    ensures var s := Flying(rows, h, req, call);
            && Next(s, Do(0, o, c, port)) == Act(s, 0, o, c, port)
            && (forall rows', h', call' ::
                  Then(s.(rows := rows', host := h'), 0, req, call') == Flying(rows', h', req, call'))
            && (forall rows', h' :: Finish(s.(rows := rows', host := h'), 0) == State(rows', h', map[]))
  {
    forall call': Call ensures map[0 := Proc(req, call)][0 := Proc(req, call')] == map[0 := Proc(req, call')] {}
    assert map[0 := Proc(req, call)] - {0} == map[];
  }

  /** One call, as the script decides it; `c` is an ID Docker has not given out. */
  lemma Take(rows: map<string, string>, h: Host, req: Request, call: Call, c: string, sc: Script)
    returns (run: seq<Step>)
    requires c !in h.issued && !call.MakeContainer?
    ensures var s := Flying(rows, h, req, call);
            && run == [Do(0, Decision(call, sc), c, 0)] && Follows(s, run, sc)
            && Exec(s, run) == Act(s, 0, Decision(call, sc), c, 0)
            && (call == WriteStatus ==> Exec(s, run) == State(rows, h, map[]))
            && (call == DropRow ==> Exec(s, run) == State(rows - {req.id}, h, map[]))
  {
    var o := Decision(call, sc);
    Moves(rows, h, req, call, o, c, 0);
    Single(Flying(rows, h, req, call), Do(0, o, c, 0), sc);
    run := [Do(0, o, c, 0)];
  }

  // --- starting ---

  /** Launching a container that exists, then writing the status. */
  lemma LaunchRun(rows: map<string, string>, h: Host, req: Request, container: string, rebuilt: bool, c: string, sc: Script)
    returns (run: seq<Step>)
    requires c !in h.issued
    requires container in h.containers || rebuilt || !sc.f.start.Done?
    ensures var o := if rebuilt then sc.f.restart else sc.f.start;
            && Exec(Flying(rows, h, req, Launch(container, rebuilt)), run)
               == State(rows, ContainerStart(h, container, o).0, map[])
            && Follows(Flying(rows, h, req, Launch(container, rebuilt)), run, sc)
            && run == [Do(0, o, c, 0), Do(0, Done, c, 0)]
  {
    var o := if rebuilt then sc.f.restart else sc.f.start;
    var launch := Take(rows, h, req, Launch(container, rebuilt), c, sc);
    Moves(rows, h, req, Launch(container, rebuilt), o, c, 0);
    var write := Take(rows, ContainerStart(h, container, o).0, req, WriteStatus, c, sc);
    Concat(Flying(rows, h, req, Launch(container, rebuilt)), launch, write, sc);
    run := launch + write;
  }

  /** The calls up to the new container, for a request that needs one; a failure goes straight to the status. */
  lemma ProvisionRun(rows: map<string, string>, h: Host, req: Request, spec: Spec, rebuilt: bool, c: string, sc: Script)
    returns (run: seq<Step>)
    requires spec.containerName == ContainerName(req.id) && spec.volumeName == VolumeName(req.id)
    requires spec.hostPort == sc.port && sc.f.newContainer !in h.issued && c !in h.issued
    ensures var (h', made) := Provision(h, spec, sc.f);
            && Exec(Flying(rows, h, req, MakeVolume(rebuilt)), run)
               == Flying(rows, h', req, if made.Ok? then SaveContainer(sc.f.newContainer, rebuilt) else WriteStatus)
            && Follows(Flying(rows, h, req, MakeVolume(rebuilt)), run, sc)
            && (made.Ok? ==> AllDone(run))
  {
    var start := Flying(rows, h, req, MakeVolume(rebuilt));
    var (h1, error) := VolumeCreate(h, spec.volumeName, sc.f.volumeCreate);
    var volume := Take(rows, h, req, MakeVolume(rebuilt), c, sc);
    Moves(rows, h, req, MakeVolume(rebuilt), sc.f.volumeCreate, c, 0);
    if error.Some? {
      run := volume;
    } else {
      var create := CreateCall(rows, h1, req, spec, rebuilt, sc);
      Concat(start, volume, create, sc);
      run := volume + create;
    }
  }

  lemma CreateCall(rows: map<string, string>, h: Host, req: Request, spec: Spec, rebuilt: bool, sc: Script)
    returns (run: seq<Step>)
    requires spec.containerName == ContainerName(req.id) && spec.volumeName == VolumeName(req.id)
    requires spec.hostPort == sc.port && sc.f.newContainer !in h.issued
    ensures var made := Container(spec.containerName, spec.hostPort, spec.volumeName, false);
            var (h', error) := ContainerCreate(h, sc.f.newContainer, made, sc.f.containerCreate);
            && Exec(Flying(rows, h, req, MakeContainer(rebuilt)), run)
               == Flying(rows, h', req, if error == None then SaveContainer(sc.f.newContainer, rebuilt) else WriteStatus)
            && Follows(Flying(rows, h, req, MakeContainer(rebuilt)), run, sc)
            && (error == None ==> AllDone(run))
  {
    var o := CreateOutcome(sc.f.containerCreate);
    Moves(rows, h, req, MakeContainer(rebuilt), o, sc.f.newContainer, spec.hostPort);
    Single(Flying(rows, h, req, MakeContainer(rebuilt)), Do(0, o, sc.f.newContainer, spec.hostPort), sc);
    run := [Do(0, o, sc.f.newContainer, spec.hostPort)];
  }

  predicate AllDone(run: seq<Step>) {
    forall i | 0 <= i < |run| :: run[i].Do? && run[i].outcome.Done?
  }

  /** The rows after the new ID has been recorded, or not. */
  function Recorded(rows: map<string, string>, id: string, c: string, save: Outcome): map<string, string> {
    if save.Refused? then rows else rows[id := c]
  }

  /** The rebuild of a start: provision, record the ID, launch, and write the status. */
  lemma RebuildRun(rows: map<string, string>, h: Host, id: string, spec: Spec, rebuilt: bool, c: string, sc: Script)
    returns (run: seq<Step>)
    requires spec.containerName == ContainerName(id) && spec.volumeName == VolumeName(id) && id in rows
    requires spec.hostPort == sc.port
    requires sc.f.newContainer !in h.issued && c !in h.issued && c != sc.f.newContainer
    ensures var (h', made) := Provision(h, spec, sc.f);
            var o := if rebuilt then sc.f.restart else sc.f.start;
            && Exec(Flying(rows, h, StartServer(id), MakeVolume(rebuilt)), run)
               == (match made
                   case Ok(new_) => State(Recorded(rows, id, new_, sc.save), ContainerStart(h', new_, o).0, map[])
                   case Err(_) => State(rows, h', map[]))
            && Follows(Flying(rows, h, StartServer(id), MakeVolume(rebuilt)), run, sc)
  {
    var start := Flying(rows, h, StartServer(id), MakeVolume(rebuilt));
    var (h', made) := Provision(h, spec, sc.f);
    var provision := ProvisionRun(rows, h, StartServer(id), spec, rebuilt, c, sc);
    var rest: seq<Step>;
    if made.Ok? {
      rest := SaveAndLaunchRun(rows, h', id, made.value, rebuilt, c, sc);
    } else {
      rest := Take(rows, h', StartServer(id), WriteStatus, c, sc);
    }
    Concat(start, provision, rest, sc);
    run := provision + rest;
  }

  lemma SaveAndLaunchRun(rows: map<string, string>, h: Host, id: string, new_: string, rebuilt: bool, c: string, sc: Script)
    returns (run: seq<Step>)
    requires id in rows && new_ in h.containers && c !in h.issued
    ensures var o := if rebuilt then sc.f.restart else sc.f.start;
            && Exec(Flying(rows, h, StartServer(id), SaveContainer(new_, rebuilt)), run)
               == State(Recorded(rows, id, new_, sc.save), ContainerStart(h, new_, o).0, map[])
            && Follows(Flying(rows, h, StartServer(id), SaveContainer(new_, rebuilt)), run, sc)
            && run == [Do(0, sc.save, c, 0), Do(0, o, c, 0), Do(0, Done, c, 0)]
  {
    var req := StartServer(id);
    var save := Take(rows, h, req, SaveContainer(new_, rebuilt), c, sc);
    Moves(rows, h, req, SaveContainer(new_, rebuilt), sc.save, c, 0);
    var launch := LaunchRun(Recorded(rows, id, new_, sc.save), h, req, new_, rebuilt, c, sc);
    Concat(Flying(rows, h, req, SaveContainer(new_, rebuilt)), save, launch, sc);
    run := save + launch;
  }

  /** The call after loading a record with container ID `known`. */
  function LoadedCall(req: Request, known: string): Call
    requires !req.CreateServer?
  {
    match req
    case StartServer(_) => if known == "" then MakeVolume(false) else Launch(known, false)
    case StopServer(_) => Halt(known)
    case DeleteServer(_, _) => if known == "" then DropRow else RemoveContainer(known)
  }

  /** Beginning and loading the record. */
  lemma LoadRun(rows: map<string, string>, h: Host, req: Request, c: string, sc: Script)
    requires req.id in rows && c !in h.issued && !req.CreateServer?
    requires rows[req.id] != "" || !req.StopServer?
    ensures Next(State(rows, h, map[]), Begin(0, req)) == Flying(rows, h, req, LoadRow)
    ensures Exec(Flying(rows, h, req, LoadRow), [Do(0, Done, c, 0)])
            == Flying(rows, h, req, LoadedCall(req, rows[req.id]))
    ensures Follows(Flying(rows, h, req, LoadRow), [Do(0, Done, c, 0)], sc)
  {
    var load := Take(rows, h, req, LoadRow, c, sc);
    Moves(rows, h, req, LoadRow, Done, c, 0);
  }

  /** A stale container ID: the launch finds nothing, and the clearing removes nothing. */
  lemma StaleRun(rows: map<string, string>, h: Host, id: string, known: string, c: string, sc: Script)
    returns (run: seq<Step>)
    requires known !in h.containers && c !in h.issued && sc.f.start.Done?
    ensures Exec(Flying(rows, h, StartServer(id), Launch(known, false)), run)
            == Flying(rows, h, StartServer(id), MakeVolume(true))
    ensures Follows(Flying(rows, h, StartServer(id), Launch(known, false)), run, sc)
    ensures run == [Do(0, Done, c, 0), Do(0, sc.f.remove, c, 0)]
  {
    var req := StartServer(id);
    var launch := Take(rows, h, req, Launch(known, false), c, sc);
    Moves(rows, h, req, Launch(known, false), sc.f.start, c, 0);
    var clear := Take(rows, h, req, ClearStale(known), c, sc);
    Moves(rows, h, req, ClearStale(known), sc.f.remove, c, 0);
    Concat(Flying(rows, h, req, Launch(known, false)), launch, clear, sc);
    run := launch + clear;
  }

  lemma OneID(servers: map<string, Server>, row: Server, id: string)
    ensures ContainerIDs(servers[id := row]) == ContainerIDs(servers)[id := row.containerID]
    ensures id in servers && servers[id].containerID == row.containerID
            ==> ContainerIDs(servers[id := row]) == ContainerIDs(servers)
  {
  }

  lemma LaunchChangesNoID(w: Lifecycle.World, id: string, c: string, o: Outcome)
    requires id in w.reg.servers
    ensures Resting(Lifecycle.Launch(w, id, c, o).0)
            == State(ContainerIDs(w.reg.servers), ContainerStart(w.host, c, o).0, map[])
  {
    OneID(w.reg.servers, Lifecycle.Launch(w, id, c, o).0.reg.servers[id], id);
  }

  lemma RebuildChangesOneID(w: Lifecycle.World, srv: Server, f: Faults)
    requires srv.id in w.reg.servers
    ensures var (h, made) := Provision(w.host, SpecFor(srv), f);
            var (built, made') := Lifecycle.Rebuild(w, srv, f);
            && made' == made && built.host == h && srv.id in built.reg.servers
            && ContainerIDs(built.reg.servers)
               == match made
                  case Ok(c) => ContainerIDs(w.reg.servers)[srv.id := c]
                  case Err(_) => ContainerIDs(w.reg.servers)
  {
    var (built, _) := Lifecycle.Rebuild(w, srv, f);
    OneID(w.reg.servers, built.reg.servers[srv.id], srv.id);
  }

  /** What a start makes of a host, when its record names `known`. */
  function Started(rows: map<string, string>, h: Host, srv: Server, f: Faults): State {
    if Lifecycle.Settled(h, srv, f) then State(rows, ContainerStart(h, srv.containerID, f.start).0, map[])
    else
      var (h', made) := Provision(h, SpecFor(srv), f);
      match made
      case Ok(c) => State(rows[srv.id := c], ContainerStart(h', c, Lifecycle.AfterRebuild(srv, f)).0, map[])
      case Err(_) => State(rows, h', map[])
  }

  lemma StartChangesOneID(w: Lifecycle.World, actor: string, id: string, f: Faults)
    requires Lifecycle.Keyed(w.reg) && Lifecycle.Lookup(w.reg, actor, id).Ok?
    ensures Resting(Lifecycle.Start(w, actor, id, f).0)
            == Started(ContainerIDs(w.reg.servers), w.host, w.reg.servers[id], f)
  {
    var srv := w.reg.servers[id];
    if Lifecycle.Settled(w.host, srv, f) {
      LaunchChangesNoID(w, id, srv.containerID, f.start);
    } else {
      RebuildChangesOneID(w, srv, f);
      var (built, made) := Lifecycle.Rebuild(w, srv, f);
      match made
      case Ok(c) => LaunchChangesNoID(built, id, c, Lifecycle.AfterRebuild(srv, f));
      case Err(e) => OneID(built.reg.servers, Lifecycle.Start(w, actor, id, f).0.reg.servers[id], id);
    }
  }

  /** Everything a start does once its record is loaded. */
  lemma StartRun(rows: map<string, string>, h: Host, srv: Server, c: string, sc: Script) returns (run: seq<Step>)
    requires srv.id in rows && rows[srv.id] == srv.containerID && srv.port == sc.port && sc.save.Done?
    requires sc.f.newContainer !in h.issued && c !in h.issued && c != sc.f.newContainer && "" !in h.containers
    ensures var start := Flying(rows, h, StartServer(srv.id), LoadedCall(StartServer(srv.id), srv.containerID));
            Exec(start, run) == Started(rows, h, srv, sc.f) && Follows(start, run, sc)
  {
    var id, known := srv.id, srv.containerID;
    if Lifecycle.Settled(h, srv, sc.f) {
      run := LaunchRun(rows, h, StartServer(id), known, false, c, sc);
    } else if known == "" {
      run := RebuildRun(rows, h, id, SpecFor(srv), false, c, sc);
    } else {
      var stale := StaleRun(rows, h, id, known, c, sc);
      var rebuild := RebuildRun(rows, h, id, SpecFor(srv), true, c, sc);
      Concat(Flying(rows, h, StartServer(id), Launch(known, false)), stale, rebuild, sc);
      run := stale + rebuild;
    }
  }

  /** Begin and load, then the rest. */
  lemma AfterLoad(w: Lifecycle.World, req: Request, c: string, rest: seq<Step>, sc: Script) returns (run: seq<Step>)
    requires req.id in w.reg.servers && c !in w.host.issued && !req.CreateServer?
    requires w.reg.servers[req.id].containerID != "" || !req.StopServer?
    requires var rows := ContainerIDs(w.reg.servers);
             Follows(Flying(rows, w.host, req, LoadedCall(req, rows[req.id])), rest, sc)
    ensures var rows := ContainerIDs(w.reg.servers);
            At(Resting(w), run, |run|) == Exec(Flying(rows, w.host, req, LoadedCall(req, rows[req.id])), rest)
    ensures Serves(Resting(w), req, run, sc)
    ensures run == [Begin(0, req), Do(0, Done, c, 0)] + rest
  {
    var rows := ContainerIDs(w.reg.servers);
    LoadRun(rows, w.host, req, c, sc);
    Concat(Flying(rows, w.host, req, LoadRow), [Do(0, Done, c, 0)], rest, sc);
    run := [Begin(0, req)] + ([Do(0, Done, c, 0)] + rest);
    assert run[1..] == [Do(0, Done, c, 0)] + rest;
    ExecIsAt(Resting(w), run, |run|);
  }

  /** Served alone, a start that finds its record is one run of the interleaved model: the request begins, makes nothing but
      its own calls, each met as Docker decides, and leads from the resting state before it to the resting state after. */
  lemma SoloStart(w: Lifecycle.World, actor: string, id: string, f: Faults, c: string) returns (run: seq<Step>)
    requires Invariant.Inv(w) && Lifecycle.Lookup(w.reg, actor, id).Ok?
    requires Invariant.FreshContainer(w, f) && c !in w.host.issued && c != f.newContainer
    ensures Serves(Resting(w), StartServer(id), run, Script(f, w.reg.servers[id].port, Done))
    ensures At(Resting(w), run, |run|) == Resting(Lifecycle.Start(w, actor, id, f).0)
  {
    var sc := Script(f, w.reg.servers[id].port, Done);
    StartChangesOneID(w, actor, id, f);
    var rest := StartRun(ContainerIDs(w.reg.servers), w.host, w.reg.servers[id], c, sc);
    run := AfterLoad(w, StartServer(id), c, rest, sc);
  }

  // --- stopping, deleting, creating ---

  lemma StopChangesNoID(w: Lifecycle.World, actor: string, id: string, f: Faults)
    requires Lifecycle.Lookup(w.reg, actor, id).Ok? && w.reg.servers[id].containerID != ""
    ensures Resting(Lifecycle.Stop(w, actor, id, f).0)
            == State(ContainerIDs(w.reg.servers), ContainerStop(w.host, w.reg.servers[id].containerID, f.stop).0, map[])
  {
    OneID(w.reg.servers, Lifecycle.Stop(w, actor, id, f).0.reg.servers[id], id);
  }

  lemma HaltRun(rows: map<string, string>, h: Host, id: string, known: string, c: string, sc: Script)
    returns (run: seq<Step>)
    requires c !in h.issued
    ensures Exec(Flying(rows, h, StopServer(id), Halt(known)), run)
            == State(rows, ContainerStop(h, known, sc.f.stop).0, map[])
    ensures Follows(Flying(rows, h, StopServer(id), Halt(known)), run, sc)
  {
    var req := StopServer(id);
    var halt := Take(rows, h, req, Halt(known), c, sc);
    Moves(rows, h, req, Halt(known), sc.f.stop, c, 0);
    var write := Take(rows, ContainerStop(h, known, sc.f.stop).0, req, WriteStatus, c, sc);
    Concat(Flying(rows, h, req, Halt(known)), halt, write, sc);
    run := halt + write;
  }

  /** A request that finds no record, or a stop that finds no container ID on it, loads and is done. */
  lemma LoadEndsIt(w: Lifecycle.World, req: Request, c: string, sc: Script) returns (run: seq<Step>)
    requires c !in w.host.issued && !req.CreateServer?
    requires req.id in w.reg.servers ==> req.StopServer? && w.reg.servers[req.id].containerID == ""
    ensures Serves(Resting(w), req, run, sc)
    ensures At(Resting(w), run, |run|) == Resting(w)
  {
    var rows := ContainerIDs(w.reg.servers);
    var load := Take(rows, w.host, req, LoadRow, c, sc);
    Moves(rows, w.host, req, LoadRow, Done, c, 0);
    run := [Begin(0, req)] + load;
    assert run[1..] == load;
    assert Next(Resting(w), Begin(0, req)) == Flying(rows, w.host, req, LoadRow);
    ExecIsAt(Resting(w), run, |run|);
  }

  lemma SoloStop(w: Lifecycle.World, actor: string, id: string, f: Faults, c: string) returns (run: seq<Step>)
    requires Invariant.Inv(w) && Lifecycle.Lookup(w.reg, actor, id).Ok? && c !in w.host.issued
    ensures Serves(Resting(w), StopServer(id), run, Script(f, w.reg.servers[id].port, Done))
    ensures At(Resting(w), run, |run|) == Resting(Lifecycle.Stop(w, actor, id, f).0)
  {
    var sc := Script(f, w.reg.servers[id].port, Done);
    if w.reg.servers[id].containerID == "" {
      run := LoadEndsIt(w, StopServer(id), c, sc);
    } else {
      StopChangesNoID(w, actor, id, f);
      var rest := HaltRun(ContainerIDs(w.reg.servers), w.host, id, w.reg.servers[id].containerID, c, sc);
      run := AfterLoad(w, StopServer(id), c, rest, sc);
    }
  }

  /** Served alone, a request on a server that is not there is a run that changes nothing. */
  lemma SoloUnknown(w: Lifecycle.World, actor: string, id: string, deleteData: bool, f: Faults, c: string)
    returns (start: seq<Step>, stop: seq<Step>, delete_: seq<Step>)
    requires Lifecycle.Keyed(w.reg) && actor in w.reg.users && id !in w.reg.servers && c !in w.host.issued
    ensures Serves(Resting(w), StartServer(id), start, Script(f, 0, Done))
    ensures Serves(Resting(w), StopServer(id), stop, Script(f, 0, Done))
    ensures Serves(Resting(w), DeleteServer(id, deleteData), delete_, Script(f, 0, Done))
    ensures At(Resting(w), start, |start|) == Resting(Lifecycle.Start(w, actor, id, f).0)
    ensures At(Resting(w), stop, |stop|) == Resting(Lifecycle.Stop(w, actor, id, f).0)
    ensures At(Resting(w), delete_, |delete_|) == Resting(Lifecycle.Delete(w, actor, id, deleteData, f).0)
  {
    start := LoadEndsIt(w, StartServer(id), c, Script(f, 0, Done));
    stop := LoadEndsIt(w, StopServer(id), c, Script(f, 0, Done));
    delete_ := LoadEndsIt(w, DeleteServer(id, deleteData), c, Script(f, 0, Done));
  }

  /** The calls of a teardown: it ends at the record if Docker let go, and at the status if not. */
  lemma TeardownRun(
    rows: map<string, string>, h: Host, id: string, deleteData: bool, known: string, c: string, sc: Script)
    returns (run: seq<Step>)
    requires c !in h.issued
    ensures var (h', error) := Teardown(h, known, VolumeName(id), deleteData, sc.f);
            var start := Flying(rows, h, DeleteServer(id, deleteData), RemoveContainer(known));
            && Exec(start, run)
               == Flying(rows, h', DeleteServer(id, deleteData), if error == None then DropRow else WriteStatus)
            && Follows(start, run, sc)
  {
    var req := DeleteServer(id, deleteData);
    var (h1, error) := ContainerRemove(h, known, sc.f.remove);
    var remove := Take(rows, h, req, RemoveContainer(known), c, sc);
    Moves(rows, h, req, RemoveContainer(known), sc.f.remove, c, 0);
    run := remove;
    if deleteData && !(error.Some? && error.value.Failed?) {
      var removeVolume := Take(rows, h1, req, RemoveVolume, c, sc);
      Moves(rows, h1, req, RemoveVolume, sc.f.volumeRemove, c, 0);
      Concat(Flying(rows, h, req, RemoveContainer(known)), remove, removeVolume, sc);
      run := remove + removeVolume;
    }
  }

  lemma DeleteDropsOneID(w: Lifecycle.World, actor: string, id: string, deleteData: bool, f: Faults)
    requires Lifecycle.Lookup(w.reg, actor, id).Ok? && Lifecycle.Keyed(w.reg)
    ensures var (h, error) :=
              if w.reg.servers[id].containerID == "" then (w.host, None)
              else Teardown(w.host, w.reg.servers[id].containerID, VolumeName(id), deleteData, f);
            var rows := ContainerIDs(w.reg.servers);
            Resting(Lifecycle.Delete(w, actor, id, deleteData, f).0)
            == State(if error == None then rows - {id} else rows, h, map[])
  {
    var (w', code) := Lifecycle.Delete(w, actor, id, deleteData, f);
    if code == Lifecycle.NO_CONTENT {
      assert ContainerIDs(w.reg.servers - {id}) == ContainerIDs(w.reg.servers) - {id};
    } else {
      OneID(w.reg.servers, w'.reg.servers[id], id);
    }
  }

  lemma DeleteRun(
    rows: map<string, string>, h: Host, id: string, deleteData: bool, known: string, c: string, sc: Script)
    returns (run: seq<Step>)
    requires c !in h.issued
    ensures var (h', error) := Teardown(h, known, VolumeName(id), deleteData, sc.f);
            var start := Flying(rows, h, DeleteServer(id, deleteData), RemoveContainer(known));
            && Exec(start, run) == State(if error == None then rows - {id} else rows, h', map[])
            && Follows(start, run, sc)
  {
    var req := DeleteServer(id, deleteData);
    var teardown := TeardownRun(rows, h, id, deleteData, known, c, sc);
    var (h', error) := Teardown(h, known, VolumeName(id), deleteData, sc.f);
    var last := Take(rows, h', req, if error == None then DropRow else WriteStatus, c, sc);
    Concat(Flying(rows, h, req, RemoveContainer(known)), teardown, last, sc);
    run := teardown + last;
  }

  lemma SoloDelete(w: Lifecycle.World, actor: string, id: string, deleteData: bool, f: Faults, c: string)
    returns (run: seq<Step>)
    requires Invariant.Inv(w) && Lifecycle.Lookup(w.reg, actor, id).Ok? && c !in w.host.issued
    ensures Serves(Resting(w), DeleteServer(id, deleteData), run, Script(f, w.reg.servers[id].port, Done))
    ensures At(Resting(w), run, |run|) == Resting(Lifecycle.Delete(w, actor, id, deleteData, f).0)
  {
    var sc := Script(f, w.reg.servers[id].port, Done);
    var req, rows := DeleteServer(id, deleteData), ContainerIDs(w.reg.servers);
    DeleteDropsOneID(w, actor, id, deleteData, f);
    var rest: seq<Step>;
    if rows[id] == "" {
      rest := Take(rows, w.host, req, DropRow, c, sc);
    } else {
      rest := DeleteRun(rows, w.host, id, deleteData, rows[id], c, sc);
    }
    run := AfterLoad(w, req, c, rest, sc);
  }

  lemma InstallAddsOneID(w: Lifecycle.World, row: Server, f: Faults)
    requires InsertServer(w.reg, row).Ok? && row.containerID == ""
    ensures var (h, made) := Provision(w.host, SpecFor(row), f);
            var rows := ContainerIDs(w.reg.servers);
            Resting(Lifecycle.Install(w, row, f).0)
            == State(rows[row.id := ""][row.id := if made.Ok? then made.value else ""], h, map[])
  {
    OneID(w.reg.servers, Lifecycle.Install(w, row, f).0.reg.servers[row.id], row.id);
  }

  lemma SettleRun(rows: map<string, string>, h: Host, id: string, made: Result<string, DockerError>, c: string, sc: Script)
    returns (run: seq<Step>)
    requires c !in h.issued && id in rows && rows[id] == "" && sc.save.Done?
    ensures var call := if made.Ok? then SaveContainer(made.value, true) else WriteStatus;
            && Exec(Flying(rows, h, CreateServer(id), call), run)
               == State(rows[id := if made.Ok? then made.value else ""], h, map[])
            && Follows(Flying(rows, h, CreateServer(id), call), run, sc)
  {
    var call := if made.Ok? then SaveContainer(made.value, true) else WriteStatus;
    run := Take(rows, h, CreateServer(id), call, c, sc);
    Moves(rows, h, CreateServer(id), call, Done, c, 0);
    assert rows[id := ""] == rows;
  }

  /** Once its row is written, a create provisions and then records the container or the failure. */
  lemma FillRun(rows: map<string, string>, h: Host, id: string, spec: Spec, c: string, sc: Script)
    returns (run: seq<Step>)
    requires spec.containerName == ContainerName(id) && spec.volumeName == VolumeName(id) && spec.hostPort == sc.port
    requires sc.f.newContainer !in h.issued && c !in h.issued && c != sc.f.newContainer && sc.save.Done?
    requires id in rows && rows[id] == ""
    ensures var (h', made) := Provision(h, spec, sc.f);
            && Exec(Flying(rows, h, CreateServer(id), MakeVolume(true)), run)
               == State(rows[id := if made.Ok? then made.value else ""], h', map[])
            && Follows(Flying(rows, h, CreateServer(id), MakeVolume(true)), run, sc)
  {
    var provision := ProvisionRun(rows, h, CreateServer(id), spec, true, c, sc);
    var (h', made) := Provision(h, spec, sc.f);
    var settle := SettleRun(rows, h', id, made, c, sc);
    Concat(Flying(rows, h, CreateServer(id), MakeVolume(true)), provision, settle, sc);
    run := provision + settle;
  }

  lemma CreateRun(rows: map<string, string>, h: Host, id: string, spec: Spec, c: string, sc: Script)
    returns (run: seq<Step>)
    requires spec.containerName == ContainerName(id) && spec.volumeName == VolumeName(id) && spec.hostPort == sc.port
    requires sc.f.newContainer !in h.issued && c !in h.issued && c != sc.f.newContainer && sc.save.Done?
    ensures var (h', made) := Provision(h, spec, sc.f);
            && Exec(Flying(rows, h, CreateServer(id), InsertRow), run)
               == State(rows[id := ""][id := if made.Ok? then made.value else ""], h', map[])
            && Follows(Flying(rows, h, CreateServer(id), InsertRow), run, sc)
  {
    var insert := InsertCall(rows, h, id, c, sc);
    var fill := FillRun(rows[id := ""], h, id, spec, c, sc);
    Concat(Flying(rows, h, CreateServer(id), InsertRow), insert, fill, sc);
    run := insert + fill;
  }

  lemma InsertCall(rows: map<string, string>, h: Host, id: string, c: string, sc: Script) returns (run: seq<Step>)
    requires c !in h.issued
    ensures Exec(Flying(rows, h, CreateServer(id), InsertRow), run)
            == Flying(rows[id := ""], h, CreateServer(id), MakeVolume(true))
    ensures Follows(Flying(rows, h, CreateServer(id), InsertRow), run, sc)
  {
    run := Take(rows, h, CreateServer(id), InsertRow, c, sc);
    Moves(rows, h, CreateServer(id), InsertRow, Done, c, 0);
  }

  lemma SoloInstall(w: Lifecycle.World, row: Server, f: Faults, c: string) returns (run: seq<Step>)
    requires InsertServer(w.reg, row).Ok? && row.containerID == ""
    requires f.newContainer !in w.host.issued && c !in w.host.issued && c != f.newContainer
    ensures Serves(Resting(w), CreateServer(row.id), run, Script(f, row.port, Done))
    ensures At(Resting(w), run, |run|) == Resting(Lifecycle.Install(w, row, f).0)
  {
    var req, sc := CreateServer(row.id), Script(f, row.port, Done);
    var create := CreateRun(ContainerIDs(w.reg.servers), w.host, row.id, SpecFor(row), c, sc);
    run := [Begin(0, req)] + create;
    assert run[1..] == create;
    assert Next(Resting(w), Begin(0, req)) == Flying(ContainerIDs(w.reg.servers), w.host, req, InsertRow);
    ExecIsAt(Resting(w), run, |run|);
    InstallAddsOneID(w, row, f);
  }

  // --- the statements of a create ---

  /** The race model's view of the registry: as many rows, on the same ports, and one request at a time. */
  ghost predicate Agrees(r: Registry, s: CreateRace.State) {
    |s.rows| == |r.servers| && CreateRace.Claimed(s.rows) == ClaimedPorts(r.servers) && s.slots == [CreateRace.Idle]
  }

  lemma InsertKeepsAgreement(r: Registry, row: Server, rows: map<nat, int>, n: nat)
    requires |rows| == |r.servers| && CreateRace.Claimed(rows) == ClaimedPorts(r.servers)
    requires n !in rows && row.id !in r.servers
    ensures |rows[n := row.port]| == |r.servers[row.id := row]|
    ensures CreateRace.Claimed(rows[n := row.port]) == ClaimedPorts(r.servers[row.id := row])
  {
    var servers, rows' := r.servers[row.id := row], rows[n := row.port];
    forall p ensures p in CreateRace.Claimed(rows') <==> p in CreateRace.Claimed(rows) || p == row.port {
      assert rows'[n] == row.port;
      assert forall i | i in rows :: rows'[i] == rows[i];
    }
    forall p ensures p in ClaimedPorts(servers) <==> p in ClaimedPorts(r.servers) || p == row.port {
      assert servers[row.id].port == row.port;
      assert forall i | i in r.servers :: servers[i] == r.servers[i];
    }
  }

  lemma Three(pool: CreateRace.Pool, s: CreateRace.State, a: CreateRace.Step, b: CreateRace.Step, c: CreateRace.Step)
    ensures CreateRace.After(pool, s, [a, b, c])
            == CreateRace.Next(pool, CreateRace.Next(pool, CreateRace.Next(pool, s, a), b), c)
  {
    CreateRace.Two(pool, s, a, b);
    CreateRace.One(pool, CreateRace.After(pool, s, [a, b]), c);
    CreateRace.AfterConcat(pool, s, [a, b], [c]);
    assert [a, b] + [c] == [a, b, c];
  }

  /** The three statements of a request that has the place to itself. */
  lemma ThreeStatements(pool: CreateRace.Pool, s: CreateRace.State, busy: set<int>, n: nat)
    requires s.slots == [CreateRace.Idle] && n !in s.rows
    ensures var t := CreateRace.After(pool, s, [CreateRace.Check(0), CreateRace.Read(0, busy), CreateRace.Insert(0, n)]);
            var port := LowestFree(pool.start, pool.end, CreateRace.Claimed(s.rows), busy);
            t == if |s.rows| < pool.maxServers && port.Some?
                 then s.(rows := s.rows[n := port.value], wins := s.wins + [CreateRace.Win(0, port.value)])
                 else s
  {
    Three(pool, s, CreateRace.Check(0), CreateRace.Read(0, busy), CreateRace.Insert(0, n));
  }

  lemma InstallInserts(w: Lifecycle.World, row: Server, f: Faults)
    requires InsertServer(w.reg, row).Ok?
    ensures var reg := Lifecycle.Install(w, row, f).0.reg;
            row.id in reg.servers && reg.servers[row.id].port == row.port && reg.servers[row.id].id == row.id
            && reg.servers == w.reg.servers[row.id := reg.servers[row.id]]
  {
  }

  /** Served alone, a create makes the three statements of the race model, and never loses: it gets its row exactly when
      the cap and the pool allow. */
  lemma SoloAdmission(cfg: Lifecycle.Config, w: Lifecycle.World, row: Server, busy: set<int>, f: Faults,
                      v: Input, s: CreateRace.State, n: nat)
    requires Invariant.Inv(w) && row.id !in w.minted && Agrees(w.reg, s) && n !in s.rows
    requires row.ownerID in w.reg.users && Acceptable(v)
    requires v.provider == MODPACK_CURSEFORGE ==> cfg.curseForgeKey != ""
    requires Lifecycle.Admit(cfg, w.reg, row.ownerID, v, busy).Ok? ==>
               row.port == Lifecycle.Admit(cfg, w.reg, row.ownerID, v, busy).value
    ensures var pool := CreateRace.Pool(cfg.maxServers, cfg.portStart, cfg.portEnd);
            var probed := if cfg.probeHost then busy else {};
            var t := CreateRace.After(pool, s, [CreateRace.Check(0), CreateRace.Read(0, probed), CreateRace.Insert(0, n)]);
            var admitted := Lifecycle.Admit(cfg, w.reg, row.ownerID, v, busy);
            && Agrees(if admitted.Ok? then Lifecycle.Install(w, row, f).0.reg else w.reg, t)
            && t.losses == s.losses
            && t.wins == if admitted.Ok? then s.wins + [CreateRace.Win(0, row.port)] else s.wins
  {
    var pool := CreateRace.Pool(cfg.maxServers, cfg.portStart, cfg.portEnd);
    ThreeStatements(pool, s, if cfg.probeHost then busy else {}, n);
    if Lifecycle.Admit(cfg, w.reg, row.ownerID, v, busy).Ok? {
      InstallInserts(w, row, f);
      InsertKeepsAgreement(w.reg, Lifecycle.Install(w, row, f).0.reg.servers[row.id], s.rows, n);
    }
  }

  /** A delete served alone gives its port back in the race model too. */
  lemma SoloRemoval(r: Registry, id: string, pool: CreateRace.Pool, s: CreateRace.State, n: nat)
    requires DistinctPorts(r.servers) && Agrees(r, s)
    requires forall i, j | i in s.rows && j in s.rows && s.rows[i] == s.rows[j] :: i == j
    requires id in r.servers && n in s.rows && s.rows[n] == r.servers[id].port
    ensures Agrees(Registries.DeleteServer(r, id).value, CreateRace.Next(pool, s, CreateRace.Delete(n)))
  {
    var port, servers, rows := s.rows[n], r.servers - {id}, s.rows - {n};
    assert servers.Keys == r.servers.Keys - {id} && rows.Keys == s.rows.Keys - {n};
    forall p ensures p in CreateRace.Claimed(rows) <==> p in CreateRace.Claimed(s.rows) && p != port {
      assert forall i | i in rows :: rows[i] == s.rows[i];
      if i :| i in s.rows && s.rows[i] == p && p != port { assert i in rows && rows[i] == p; }
    }
    forall p ensures p in ClaimedPorts(servers) <==> p in ClaimedPorts(r.servers) && p != port {
      assert forall t | t in servers :: servers[t] == r.servers[t];
      if t :| t in r.servers && r.servers[t].port == p && p != port { assert t in servers && servers[t].port == p; }
    }
  }

  // --- the statements of an account request ---

  function Accounts(w: Lifecycle.World): AdminRace.State {
    AdminRace.State(w.reg.users, map[])
  }

  lemma Four(s: AdminRace.State, a: AdminRace.Step, b: AdminRace.Step, c: AdminRace.Step, d: AdminRace.Step)
    ensures AdminRace.After(s, [a, b, c, d])
            == AdminRace.Next(AdminRace.Next(AdminRace.Next(AdminRace.Next(s, a), b), c), d)
  {
    AdminRace.TwoSteps(s, a, b, [c, d]);
    AdminRace.TwoSteps(AdminRace.Next(AdminRace.Next(s, a), b), c, d, []);
    assert [a, b] + [c, d] == [a, b, c, d] && [c, d] + [] == [c, d];
  }

  lemma ThreeSteps(s: AdminRace.State, a: AdminRace.Step, b: AdminRace.Step, c: AdminRace.Step)
    ensures AdminRace.After(s, [a, b, c]) == AdminRace.Next(AdminRace.Next(AdminRace.Next(s, a), b), c)
  {
    AdminRace.TwoSteps(s, a, b, [c]);
    assert [a, b] + [c] == [a, b, c] && [c][1..] == [];
  }

  /** An account request in flight on its own. */
  function Alone(users: map<string, User>, p: AdminRace.Proc): AdminRace.State {
    AdminRace.State(users, map[0 := p])
  }

  lemma Starts(users: map<string, User>, p: AdminRace.Proc)
    requires AdminRace.MayBegin(users, p)
    ensures AdminRace.Next(AdminRace.State(users, map[]), AdminRace.Begin(0, p)) == Alone(users, p)
  {
  }

  /** One statement, and the request goes on to `q`. */
  lemma Continues(users: map<string, User>, p: AdminRace.Proc, q: AdminRace.Proc)
    requires AdminRace.AdvanceProc(Alone(users, p), 0) == AdminRace.Turn(Alone(users, p), 0, q)
    ensures AdminRace.Next(Alone(users, p), AdminRace.Advance(0)) == Alone(users, q)
  {
    assert map[0 := p][0 := q] == map[0 := q];
  }

  /** One statement, the last, which leaves `users'`. */
  lemma Finishes(users: map<string, User>, p: AdminRace.Proc, users': map<string, User>)
    requires AdminRace.AdvanceProc(Alone(users, p), 0) == AdminRace.Finish(Alone(users', p), 0)
    ensures AdminRace.Next(Alone(users, p), AdminRace.Advance(0)) == AdminRace.State(users', map[])
  {
    assert map[0 := p] - {0} == map[];
  }

  lemma GivesUp(users: map<string, User>, p: AdminRace.Proc)
    ensures AdminRace.Next(Alone(users, p), AdminRace.Abandon(0)) == AdminRace.State(users, map[])
    ensures AdminRace.Next(AdminRace.State(users, map[]), AdminRace.Abandon(0)) == AdminRace.State(users, map[])
  {
    assert map[0 := p] - {0} == map[];
    var s := AdminRace.State(users, map[]);
    assert s.procs - {0} == s.procs;
  }

  lemma SoloDemote(users: map<string, User>, target: string)
    ensures var s := Alone(users, AdminRace.DemoteCount(target));
            AdminRace.Next(AdminRace.Next(s, AdminRace.Advance(0)), AdminRace.Advance(0))
            == AdminRace.State(if |Admins(users)| <= 1 then users else AdminRace.SetAdmin(users, target, false), map[])
  {
    var count, write := AdminRace.DemoteCount(target), AdminRace.Revoke(target);
    if |Admins(users)| <= 1 {
      Finishes(users, count, users);
    } else {
      Continues(users, count, write);
      Finishes(users, write, AdminRace.SetAdmin(users, target, false));
    }
  }

  /** Served alone, a role change is one run of the statement-level model. */
  lemma SoloSetRole(w: Lifecycle.World, actor: string, target: string, isAdmin: bool)
    requires Lifecycle.RequireAdmin(w.reg, actor) == None
    ensures AdminRace.After(Accounts(w), [AdminRace.Begin(0, AdminRace.RoleLookup(actor, target, isAdmin)),
                                          AdminRace.Advance(0), AdminRace.Advance(0), AdminRace.Advance(0)])
            == Accounts(Lifecycle.SetRole(w, actor, target, isAdmin).0)
  {
    var users, look := w.reg.users, AdminRace.RoleLookup(actor, target, isAdmin);
    assert actor in Admins(users);
    Four(Accounts(w), AdminRace.Begin(0, look), AdminRace.Advance(0), AdminRace.Advance(0), AdminRace.Advance(0));
    Starts(users, look);
    if target !in users || isAdmin == users[target].isAdmin || (!isAdmin && target == actor) {
      Finishes(users, look, users);
    } else if isAdmin {
      Continues(users, look, AdminRace.Grant(target));
      Finishes(users, AdminRace.Grant(target), AdminRace.SetAdmin(users, target, true));
    } else {
      Continues(users, look, AdminRace.DemoteCount(target));
      SoloDemote(users, target);
    }
  }

  /** Once the target has been looked up, the deletion takes the account. */
  lemma SoloErase(users: map<string, User>, actor: string, target: string)
    requires target in users && target != actor && (users[target].isAdmin ==> |Admins(users)| > 1)
    ensures var s := Alone(users, AdminRace.RemoveLookup(actor, target));
            var s2 := AdminRace.Next(AdminRace.Next(s, AdminRace.Advance(0)), AdminRace.Advance(0));
            AdminRace.Next(s2, AdminRace.Advance(0))
            == AdminRace.State(users - {target}, map[])
  {
    var look, count, erase := AdminRace.RemoveLookup(actor, target), AdminRace.RemoveCount(target), AdminRace.Erase(target);
    if users[target].isAdmin {
      Continues(users, look, count);
      Continues(users, count, erase);
    } else {
      Continues(users, look, erase);
    }
    Finishes(users, erase, users - {target});
  }

  /** So is a deletion; one that stops short of the account is a run whose last statement never comes. */
  lemma SoloRemoveUser(w: Lifecycle.World, actor: string, target: string, reassign: bool)
    requires Lifecycle.RequireAdmin(w.reg, actor) == None
    ensures var (w', code) := Lifecycle.RemoveUser(w, actor, target, reassign);
            var last := if code == Lifecycle.NO_CONTENT then AdminRace.Advance(0) else AdminRace.Abandon(0);
            AdminRace.After(Accounts(w), [AdminRace.Begin(0, AdminRace.RemoveLookup(actor, target)),
                                          AdminRace.Advance(0), last, last])
            == Accounts(w')
  {
    var users, look := w.reg.users, AdminRace.RemoveLookup(actor, target);
    var code := Lifecycle.RemoveUser(w, actor, target, reassign).1;
    assert actor in Admins(users);
    var last := if code == Lifecycle.NO_CONTENT then AdminRace.Advance(0) else AdminRace.Abandon(0);
    Four(Accounts(w), AdminRace.Begin(0, look), AdminRace.Advance(0), last, last);
    Starts(users, look);
    if code == Lifecycle.NO_CONTENT {
      ReassignmentShieldsRows(w.reg, target, actor);
      SoloErase(users, actor, target);
    } else if target !in users || target == actor {
      Finishes(users, look, users);
      GivesUp(users, look);
    } else {
      var next := if users[target].isAdmin then AdminRace.RemoveCount(target) else AdminRace.Erase(target);
      Continues(users, look, next);
      GivesUp(users, next);
    }
  }
  /** The insert that ends every request for a new account. */
  lemma SoloInsert(users: map<string, User>, u: User)
    ensures AdminRace.Next(Alone(users, AdminRace.InsertRow(u)), AdminRace.Advance(0))
            == AdminRace.State(if u.id in users || exists v :: v in users && users[v].username == u.username then users
                               else users[u.id := u], map[])
  {
    var taken := u.id in users || exists v :: v in users && users[v].username == u.username;
    Finishes(users, AdminRace.InsertRow(u), if taken then users else users[u.id := u]);
  }

  /** Served alone, a registration with good credentials is one run: its question, then its insert. */
  lemma SoloRegister(cfg: Lifecycle.Config, w: Lifecycle.World, id: string, username: string, password: Lifecycle.Password)
    requires cfg.allowRegistration && GoodUsername(TrimSpace(username)) && GoodPassword(password.text)
    requires password.hash.Some?
    ensures var read := AdminRace.RegisterRead(id, TrimSpace(username), password.hash.value);
            AdminRace.After(Accounts(w), [AdminRace.Begin(0, read), AdminRace.Advance(0), AdminRace.Advance(0)])
            == Accounts(Lifecycle.Register(cfg, w, id, username, password).0)
  {
    var users, read := w.reg.users, AdminRace.RegisterRead(id, TrimSpace(username), password.hash.value);
    var u := User(id, TrimSpace(username), password.hash.value, users == map[]);
    ThreeSteps(Accounts(w), AdminRace.Begin(0, read), AdminRace.Advance(0), AdminRace.Advance(0));
    Starts(users, read);
    Continues(users, read, AdminRace.InsertRow(u));
    SoloInsert(users, u);
  }

  /** So is the seeding at startup, which ends at its question if there is an account already. */
  lemma SoloSeed(w: Lifecycle.World, id: string, username: string, password: Lifecycle.Password)
    requires username != "" && password.text != "" && password.hash.Some?
    ensures AdminRace.After(Accounts(w), [AdminRace.Begin(0, AdminRace.SeedRead(id, username, password.hash.value)),
                                          AdminRace.Advance(0), AdminRace.Advance(0)])
            == Accounts(Lifecycle.Seed(w, id, username, password))
  {
    var users, read := w.reg.users, AdminRace.SeedRead(id, username, password.hash.value);
    var u := User(id, username, password.hash.value, true);
    ThreeSteps(Accounts(w), AdminRace.Begin(0, read), AdminRace.Advance(0), AdminRace.Advance(0));
    Starts(users, read);
    if users != map[] {
      Finishes(users, read, users);
    } else {
      Continues(users, read, AdminRace.InsertRow(u));
      SoloInsert(users, u);
      assert users[id := u] == map[id := u];
    }
  }

  /** And an account made by an admin. */
  lemma SoloNewUser(
    w: Lifecycle.World, actor: string, id: string, username: string, password: Lifecycle.Password, isAdmin: bool)
    requires Lifecycle.RequireAdmin(w.reg, actor) == None
    requires GoodUsername(TrimSpace(username)) && GoodPassword(password.text) && password.hash.Some?
    ensures var u := User(id, TrimSpace(username), password.hash.value, isAdmin);
            AdminRace.After(Accounts(w), [AdminRace.Begin(0, AdminRace.InsertRow(u)), AdminRace.Advance(0)])
            == Accounts(Lifecycle.NewUser(w, actor, id, username, password, isAdmin).0)
  {
    var users, u := w.reg.users, User(id, TrimSpace(username), password.hash.value, isAdmin);
    assert actor in Admins(users);
    AdminRace.TwoSteps(Accounts(w), AdminRace.Begin(0, AdminRace.InsertRow(u)), AdminRace.Advance(0), []);
    assert [AdminRace.Begin(0, AdminRace.InsertRow(u)), AdminRace.Advance(0)] + []
           == [AdminRace.Begin(0, AdminRace.InsertRow(u)), AdminRace.Advance(0)];
    Starts(users, AdminRace.InsertRow(u));
    SoloInsert(users, u);
  }
}
