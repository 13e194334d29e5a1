/** What becomes of a server when the write of its new container ID fails. The handlers only log that failure, so the
    record goes on pointing at nothing while a container of its name exists. */
module LostWrites {
  import opened Text
  import opened Models
  import opened Registries
  import opened DockerHosts
  import opened Lifecycle
  import Durability
  import Guarantees
  import Invariant
  import SoloRuns

  /** The record's container does not exist, and its name is taken. */
  predicate Stranded(w: World, id: string) {
    id in w.reg.servers && !Live(w.host, w.reg.servers[id]) && NameInUse(w.host, ContainerName(id))
  }

  /** Another running container holds the port the server would publish. */
  predicate PortHeld(w: World, id: string)
    requires id in w.reg.servers
  {
    var c := w.reg.servers[id].containerID;
    if Live(w.host, w.reg.servers[id]) then !w.host.containers[c].running && PortBound(w.host, w.host.containers[c].port)
    else PortBound(w.host, w.reg.servers[id].port)
  }

  lemma FreshLaunch(w: World, id: string, f: Faults)
    requires Keyed(w.reg) && id in w.reg.servers && Invariant.FreshContainer(w, f) && FaultFree(f)
    requires w.host.containers.Keys <= w.host.issued
    requires !Live(w.host, w.reg.servers[id]) && !NameInUse(w.host, ContainerName(id))
    ensures var (built, made) := Rebuild(w, w.reg.servers[id], f);
            made.Ok? && id in built.reg.servers
            && (Launch(built, id, made.value, Done).1 == OK <==> !PortBound(w.host, w.reg.servers[id].port))
  {
    var (built, made) := Rebuild(w, w.reg.servers[id], f);
    var port := w.reg.servers[id].port;
    assert built.host.containers == w.host.containers[f.newContainer := built.host.containers[f.newContainer]];
    if PortBound(w.host, port) {
      var c :| c in w.host.containers && w.host.containers[c].running && w.host.containers[c].port == port;
      if c != f.newContainer {
        assert built.host.containers[c] == w.host.containers[c];
        assert PortBound(built.host, port);
      }
    }
  }

  /** In any state at all, sound or not, a start that Docker does not fail succeeds exactly when the server is not
      stranded and its port is not held. */
  lemma StartHealsExactlyUnlessStranded(w: World, actor: string, id: string, f: Faults)
    requires Keyed(w.reg) && Lookup(w.reg, actor, id).Ok?
    requires w.host.containers.Keys <= w.host.issued && Invariant.FreshContainer(w, f) && FaultFree(f)
    ensures Start(w, actor, id, f).1 == OK <==> !Stranded(w, id) && !PortHeld(w, id)
  {
    if !Live(w.host, w.reg.servers[id]) && !NameInUse(w.host, ContainerName(id)) {
      FreshLaunch(w, id, f);
    }
  }

  /** A stranded server cannot be started, and trying leaves it stranded. */
  lemma StrandedStartFails(w: World, actor: string, id: string, f: Faults)
    requires Keyed(w.reg) && Stranded(w, id) && Lookup(w.reg, actor, id).Ok?
    ensures var (w', code) := Start(w, actor, id, f);
            && code == SERVER_ERROR && w'.host.containers == w.host.containers && w'.reg.users == w.reg.users
            && Keyed(w'.reg) && Stranded(w', id) && Lookup(w'.reg, actor, id).Ok?
  {
    var (w', _) := Start(w, actor, id, f);
    assert w'.host.containers == w.host.containers;
    var c :| c in w.host.containers && w.host.containers[c].name == ContainerName(id);
    assert w'.host.containers[c].name == ContainerName(id);
  }

  /** A series of starts of one server, each meeting Docker in its own way. */
  ghost predicate NoneSucceeds(w: World, actor: string, id: string, faults: seq<Faults>)
    requires Keyed(w.reg) && Stranded(w, id) && Lookup(w.reg, actor, id).Ok?
    decreases |faults|
  {
    faults == []
    || (StrandedStartFails(w, actor, id, faults[0]);
        var (w', code) := Start(w, actor, id, faults[0]);
        code == SERVER_ERROR && NoneSucceeds(w', actor, id, faults[1..]))
  }

  /** However often it is tried. */
  lemma {:induction false} RetriesNeverHeal(w: World, actor: string, id: string, faults: seq<Faults>)
    requires Keyed(w.reg) && Stranded(w, id) && Lookup(w.reg, actor, id).Ok?
    ensures NoneSucceeds(w, actor, id, faults)
    decreases |faults|
  {
    if faults != [] {
      StrandedStartFails(w, actor, id, faults[0]);
      RetriesNeverHeal(Start(w, actor, id, faults[0]).0, actor, id, faults[1..]);
    }
  }

  /** The world after a start that rebuilt its container, launched it, and lost nothing but the write of its ID. */
  function Forgotten(w: World, id: string, f: Faults): World
    requires id in w.reg.servers
  {
    var built := Provision(w.host, SpecFor(w.reg.servers[id]), f).0;
    Mark(w.(host := ContainerStart(built, f.newContainer, f.start).0), id, Starting, "")
  }

  lemma ForgottenIsStranded(w: World, id: string, f: Faults)
    requires Invariant.Inv(w) && id in w.reg.servers && w.reg.servers[id].containerID !in w.host.containers
    requires Invariant.FreshContainer(w, f) && FaultFree(f)
    ensures Stranded(Forgotten(w, id, f), id)
    ensures f.newContainer in Provision(w.host, SpecFor(w.reg.servers[id]), f).0.containers
    ensures Provision(w.host, SpecFor(w.reg.servers[id]), f).1 == Ok(f.newContainer)
  {
    Invariant.NoNameConflict(w, id);
    Guarantees.ProvisionGives(w.host, SpecFor(w.reg.servers[id]), f);
    var w' := Forgotten(w, id, f);
    assert w'.host.containers[f.newContainer].name == ContainerName(id);
    assert w.reg.servers[id].containerID in w.host.issued + {""};
  }

  /** Docker fails nothing, and the write of the new ID is refused. */
  function Losing(f: Faults, port: int): SoloRuns.Script {
    SoloRuns.Script(f, port, Refused("write failed"))
  }

  /** At step `i` the request is about to record its new container, and that write, alone of all its calls and statements,
      does not succeed. */
  predicate LosesOnlyTheID(s: Durability.State, run: seq<Durability.Step>, i: nat)
    requires i < |run|
  {
    var before := Durability.At(s, run, i);
    && 0 in before.procs && before.procs[0].call.SaveContainer?
    && run[i].Do? && run[i].outcome.Refused?
    && forall j | 0 < j < |run| && j != i :: run[j].Do? && run[j].outcome.Done?
  }

  /** Provision, fail to record the ID, launch all the same. `first` is the part before the lost write. */
  lemma ForgetRun(rows: map<string, string>, h: Host, id: string, spec: Spec, rebuilt: bool, c: string, f: Faults)
    returns (first: seq<Durability.Step>, rest: seq<Durability.Step>)
    requires spec.containerName == ContainerName(id) && spec.volumeName == VolumeName(id) && id in rows && FaultFree(f)
    requires f.newContainer !in h.issued && c !in h.issued && c != f.newContainer
    requires var (built, made) := Provision(h, spec, f); made == Ok(f.newContainer) && f.newContainer in built.containers
    ensures var start := SoloRuns.Flying(rows, h, Durability.StartServer(id), Durability.MakeVolume(rebuilt));
            var built, sc := Provision(h, spec, f).0, Losing(f, spec.hostPort);
            && SoloRuns.Follows(start, first + rest, sc)
            && SoloRuns.Exec(start, first + rest)
               == Durability.State(rows, ContainerStart(built, f.newContainer, Done).0, map[])
            && SoloRuns.Exec(start, first)
               == SoloRuns.Flying(rows, built, Durability.StartServer(id), Durability.SaveContainer(f.newContainer, rebuilt))
    ensures SoloRuns.AllDone(first) && |rest| > 0 && SoloRuns.AllDone(rest[1..]) && rest[0].Do? && rest[0].outcome.Refused?
  {
    var req, sc := Durability.StartServer(id), Losing(f, spec.hostPort);
    first := SoloRuns.ProvisionRun(rows, h, req, spec, rebuilt, c, sc);
    rest := SoloRuns.SaveAndLaunchRun(rows, Provision(h, spec, f).0, id, f.newContainer, rebuilt, c, sc);
    SoloRuns.Concat(SoloRuns.Flying(rows, h, req, Durability.MakeVolume(rebuilt)), first, rest, sc);
  }

  /** The same from the moment the record is loaded: a stale ID is found out first. */
  lemma ForgetfulStart(rows: map<string, string>, h: Host, id: string, spec: Spec, c: string, f: Faults)
    returns (first: seq<Durability.Step>, rest: seq<Durability.Step>)
    requires spec.containerName == ContainerName(id) && spec.volumeName == VolumeName(id) && FaultFree(f)
    requires id in rows && rows[id] !in h.containers
    requires f.newContainer !in h.issued && c !in h.issued && c != f.newContainer
    requires var (built, made) := Provision(h, spec, f); made == Ok(f.newContainer) && f.newContainer in built.containers
    ensures var req := Durability.StartServer(id);
            var start := SoloRuns.Flying(rows, h, req, SoloRuns.LoadedCall(req, rows[id]));
            var built, sc := Provision(h, spec, f).0, Losing(f, spec.hostPort);
            && SoloRuns.Follows(start, first + rest, sc)
            && SoloRuns.Exec(start, first + rest)
               == Durability.State(rows, ContainerStart(built, f.newContainer, Done).0, map[])
            && SoloRuns.Exec(start, first)
               == SoloRuns.Flying(rows, built, req, Durability.SaveContainer(f.newContainer, rows[id] != ""))
    ensures SoloRuns.AllDone(first) && |rest| > 0 && SoloRuns.AllDone(rest[1..]) && rest[0].Do? && rest[0].outcome.Refused?
  {
    first, rest := ForgetRun(rows, h, id, spec, rows[id] != "", c, f);
    if rows[id] != "" {
      var req, sc := Durability.StartServer(id), Losing(f, spec.hostPort);
      var stale := SoloRuns.StaleRun(rows, h, id, rows[id], c, sc);
      var start := SoloRuns.Flying(rows, h, req, Durability.Launch(rows[id], false));
      SoloRuns.Concat(start, stale, first + rest, sc);
      SoloRuns.Concat(start, stale, first, sc);
      Reassociate(stale, first, rest);
      first := stale + first;
    }
  }

  /** The state at a step depends on the steps before it. */
  lemma {:induction false} AtPrefix(s: Durability.State, a: seq<Durability.Step>, b: seq<Durability.Step>, n: nat)
    requires n <= |a|
    ensures Durability.At(s, a + b, n) == Durability.At(s, a, n)
  {
    if n > 0 {
      AtPrefix(s, a, b, n - 1);
      assert (a + b)[n - 1] == a[n - 1];
    }
  }

  /** Begin, load, the calls that succeed, the lost write, and the calls that succeed again. */
  lemma LossIsAt(
    s: Durability.State, begin: seq<Durability.Step>, first: seq<Durability.Step>, rest: seq<Durability.Step>,
    flying: Durability.State)
    requires |begin| == 2 && begin[1].Do? && begin[1].outcome.Done?
    requires SoloRuns.AllDone(first) && |rest| > 0 && SoloRuns.AllDone(rest[1..]) && rest[0].Do? && rest[0].outcome.Refused?
    requires SoloRuns.Exec(s, begin + first) == flying && 0 in flying.procs && flying.procs[0].call.SaveContainer?
    ensures LosesOnlyTheID(s, begin + (first + rest), 2 + |first|)
  {
    var run, i := begin + (first + rest), 2 + |first|;
    Reassociate(begin, first, rest);
    AtPrefix(s, begin + first, rest, i);
    SoloRuns.ExecIsAt(s, begin + first, i);
    forall j | 0 < j < |run| && j != i ensures run[j].Do? && run[j].outcome.Done? {
      if j > i { assert run[j] == rest[1..][j - i - 1]; } else if j >= 2 { assert run[j] == first[j - 2]; }
    }
  }

  /** One lost write is enough. From every sound world, a start that has to rebuild its container, served alone, with Docker
      failing nothing, and losing only the write of the new ID, leaves the server stranded, outside the invariant. */
  lemma LostWriteStrands(w: World, actor: string, id: string, f: Faults, c: string)
    returns (run: seq<Durability.Step>, i: nat)
    requires Invariant.Inv(w) && Lookup(w.reg, actor, id).Ok?
    requires w.reg.servers[id].containerID !in w.host.containers
    requires Invariant.FreshContainer(w, f) && c !in w.host.issued && c != f.newContainer && FaultFree(f)
    ensures SoloRuns.Serves(SoloRuns.Resting(w), Durability.StartServer(id), run, Losing(f, w.reg.servers[id].port))
    ensures 0 < i < |run| && LosesOnlyTheID(SoloRuns.Resting(w), run, i)
    ensures var w' := Forgotten(w, id, f);
            && Durability.At(SoloRuns.Resting(w), run, |run|) == SoloRuns.Resting(w')
            && Stranded(w', id) && !Invariant.Inv(w')
  {
    var req, rows := Durability.StartServer(id), SoloRuns.ContainerIDs(w.reg.servers);
    var spec := SpecFor(w.reg.servers[id]);
    var sc := Losing(f, spec.hostPort);
    ForgottenIsStranded(w, id, f);
    StrandedIsUnsound(Forgotten(w, id, f), id);
    SoloRuns.OneID(w.reg.servers, Forgotten(w, id, f).reg.servers[id], id);
    var first, rest := ForgetfulStart(rows, w.host, id, spec, c, f);
    run := SoloRuns.AfterLoad(w, req, c, first + rest, sc);
    i := 2 + |first|;
    var begin := [Durability.Begin(0, req), Durability.Do(0, Done, c, 0)];
    LoadThenFirst(w, req, c, first, sc);
    LossIsAt(SoloRuns.Resting(w), begin, first, rest,
             SoloRuns.Exec(SoloRuns.Flying(rows, w.host, req, SoloRuns.LoadedCall(req, rows[id])), first));
  }

  lemma LoadThenFirst(
    w: World, req: Durability.Request, c: string, first: seq<Durability.Step>, sc: SoloRuns.Script)
    requires req.StartServer? && req.id in w.reg.servers && c !in w.host.issued
    ensures var rows := SoloRuns.ContainerIDs(w.reg.servers);
            SoloRuns.Exec(SoloRuns.Resting(w), [Durability.Begin(0, req), Durability.Do(0, Done, c, 0)] + first)
            == SoloRuns.Exec(SoloRuns.Flying(rows, w.host, req, SoloRuns.LoadedCall(req, rows[req.id])), first)
  {
    var begin := [Durability.Begin(0, req), Durability.Do(0, Done, c, 0)];
    SoloRuns.LoadRun(SoloRuns.ContainerIDs(w.reg.servers), w.host, req, c, sc);
    SoloRuns.Pair(SoloRuns.Resting(w), begin[0], begin[1], sc);
    SoloRuns.Concat(SoloRuns.Resting(w), begin, first, sc);
    var flying := SoloRuns.Flying(SoloRuns.ContainerIDs(w.reg.servers), w.host, req, Durability.LoadRow);
    SoloRuns.Single(flying, begin[1], sc);
  }

  lemma StrandedIsUnsound(w: World, id: string)
    requires Stranded(w, id)
    ensures !Invariant.Inv(w)
  {
    if Invariant.Inv(w) {
      Invariant.NoNameConflict(w, id);
    }
  }
}
