/** World data under full interleaving: any number of create, start, stop and delete requests, each between two of its
    own Docker calls or database statements, any of which may fail, over a registry that may say anything. */
module Durability {
  import opened Text
  import opened Models
  import opened DockerHosts

  datatype Request =
    | CreateServer(id: string)
    | StartServer(id: string)
    | StopServer(id: string)
    | DeleteServer(id: string, deleteData: bool)

  /** The call a request is about to make. `rebuilt` is set once a start has already replaced a missing container. */
  datatype Call =
    | InsertRow
    | LoadRow
    | MakeVolume(rebuilt: bool)
    | MakeContainer(rebuilt: bool)
    | SaveContainer(container: string, rebuilt: bool)
    | Launch(container: string, rebuilt: bool)
    | ClearStale(container: string)
    | Halt(container: string)
    | RemoveContainer(container: string)
    | RemoveVolume
    | DropRow
    | WriteStatus

  datatype Proc = Proc(req: Request, call: Call)

  /** `rows` is the container ID each registry record carries. */
  datatype State = State(rows: map<string, string>, host: Host, procs: map<nat, Proc>)

  datatype Step =
    | Begin(pid: nat, req: Request)
    | Do(pid: nat, outcome: Outcome, newContainer: string, port: int)   // the next call of a request
    | Abandon(pid: nat)                                      // the client leaves, the server stops
    | Rewrite(rows: map<string, string>)                     // renames, cascades, restored backups
    | DockerRm(container: string)
    | Exit(container: string)
    | Restart(container: string)
    | Play(container: string, chunk: string)

  function Finish(s: State, pid: nat): State {
    s.(procs := s.procs - {pid})
  }

  function Then(s: State, pid: nat, req: Request, call: Call): State {
    s.(procs := s.procs[pid := Proc(req, call)])
  }

  /** One call; `c` and `port` are the ID Docker would mint and the port of the snapshot. A database statement fails unless
      the outcome is `Done`; a lost reply to a write has written. */
  function Act(s: State, pid: nat, o: Outcome, c: string, port: int): State
    requires pid in s.procs
  {
    var Proc(req, call) := s.procs[pid];
    var name, volume := ContainerName(req.id), VolumeName(req.id);
    match call
    case InsertRow =>
      var written := if o.Refused? then s else s.(rows := s.rows[req.id := ""]);
      if o.Done? then Then(written, pid, req, MakeVolume(true)) else Finish(written, pid)
    case LoadRow =>
      if !o.Done? || req.id !in s.rows then Finish(s, pid)
      else
        var known := s.rows[req.id];
        (match req
         case CreateServer(_) => Finish(s, pid)
         case StartServer(_) => Then(s, pid, req, if known == "" then MakeVolume(false) else Launch(known, false))
         case StopServer(_) => if known == "" then Finish(s, pid) else Then(s, pid, req, Halt(known))
         case DeleteServer(_, _) => Then(s, pid, req, if known == "" then DropRow else RemoveContainer(known)))
    case MakeVolume(rebuilt) =>
      var (h, error) := VolumeCreate(s.host, volume, o);
      Then(s.(host := h), pid, req, if error == None then MakeContainer(rebuilt) else WriteStatus)
    case MakeContainer(rebuilt) =>
      var made := Container(name, port, volume, false);
      var (h, error) := ContainerCreate(s.host, c, made, if o.Done? then None else Some(o.text));
      Then(s.(host := h), pid, req, if error == None then SaveContainer(c, rebuilt) else WriteStatus)
    case SaveContainer(container, rebuilt) =>
      var written := if o.Refused? || req.id !in s.rows then s else s.(rows := s.rows[req.id := container]);
      if req.StartServer? then Then(written, pid, req, Launch(container, rebuilt)) else Finish(written, pid)
    case Launch(container, rebuilt) =>
      var (h, error) := ContainerStart(s.host, container, o);
      Then(s.(host := h), pid, req, if error == Some(NotFound) && !rebuilt then ClearStale(container) else WriteStatus)
    case ClearStale(container) =>
      Then(s.(host := ContainerRemove(s.host, container, o).0), pid, req, MakeVolume(true))
    case Halt(container) =>
      Then(s.(host := ContainerStop(s.host, container, o).0), pid, req, WriteStatus)
    case RemoveContainer(container) =>
      var (h, error) := ContainerRemove(s.host, container, o);
      var next :=
        if error.Some? && error.value.Failed? then WriteStatus
        else if req.DeleteServer? && req.deleteData then RemoveVolume
        else DropRow;
      Then(s.(host := h), pid, req, next)
    case RemoveVolume =>
      var (h, error) := VolumeRemove(s.host, volume, o);
      Then(s.(host := h), pid, req, if error.Some? && error.value.Failed? then WriteStatus else DropRow)
    case DropRow => Finish(if o.Refused? then s else s.(rows := s.rows - {req.id}), pid)
    case WriteStatus => Finish(s, pid)
  }

  function FirstCall(req: Request): Call {
    if req.CreateServer? then InsertRow else LoadRow
  }

  function Next(s: State, step: Step): State {
    match step
    case Begin(pid, req) => if pid in s.procs then s else Then(s, pid, req, FirstCall(req))
    case Do(pid, o, c, port) => if pid in s.procs && c !in s.host.issued then Act(s, pid, o, c, port) else s
    case Abandon(pid) => Finish(s, pid)
    case Rewrite(rows) => s.(rows := rows)
    case DockerRm(c) => s.(host := ContainerRemove(s.host, c, Done).0)
    case Exit(c) => s.(host := ContainerStop(s.host, c, Done).0)
    case Restart(c) => s.(host := ContainerStart(s.host, c, Done).0)
    case Play(c, chunk) => s.(host := Saved(s.host, c, chunk))
  }

  /** The state after the first `n` steps. */
  function At(s: State, run: seq<Step>, n: nat): State
    requires n <= |run|
  {
    if n == 0 then s else Next(At(s, run, n - 1), run[n - 1])
  }

  // --- containers and their volumes ---

  ghost predicate MountsOwnVolume(c: Container) {
    exists id :: c.name == ContainerName(id) && c.volume == VolumeName(id)
  }

  ghost predicate HostSound(h: Host) {
    && h.containers.Keys <= h.issued
    && (forall c | c in h.containers :: MountsOwnVolume(h.containers[c]))
    && (forall c, d | c in h.containers && d in h.containers && h.containers[c].name == h.containers[d].name :: c == d)
  }

  /** Only a delete that asked for it ever comes to the volume. */
  ghost predicate ProcsSound(procs: map<nat, Proc>) {
    forall p | p in procs && procs[p].call == RemoveVolume :: procs[p].req.DeleteServer? && procs[p].req.deleteData
  }

  ghost predicate Inv(s: State) {
    HostSound(s.host) && ProcsSound(s.procs)
  }

  lemma CreationKeepsHostSound(h: Host, c: string, id: string, port: int, failure: Option<string>)
    requires HostSound(h) && c !in h.issued
    ensures HostSound(ContainerCreate(h, c, Container(ContainerName(id), port, VolumeName(id), false), failure).0)
  {
    var made := Container(ContainerName(id), port, VolumeName(id), false);
    assert MountsOwnVolume(made);
    var h' := ContainerCreate(h, c, made, failure).0;
    forall d | d in h'.containers ensures MountsOwnVolume(h'.containers[d]) {
      if d != c { assert MountsOwnVolume(h.containers[d]); }
    }
  }

  lemma LosingContainersKeepsHostSound(h: Host, h': Host)
    requires HostSound(h) && h'.issued == h.issued && h'.containers.Keys <= h.containers.Keys
    requires forall c | c in h'.containers :: h'.containers[c].(running := h.containers[c].running) == h.containers[c]
    ensures HostSound(h')
  {
    forall c | c in h'.containers ensures MountsOwnVolume(h'.containers[c]) {
      assert MountsOwnVolume(h.containers[c]);
      var id :| h.containers[c].name == ContainerName(id) && h.containers[c].volume == VolumeName(id);
      assert h'.containers[c].name == ContainerName(id) && h'.containers[c].volume == VolumeName(id);
    }
  }

  lemma RemovalKeepsHostSound(h: Host, c: string, o: Outcome)
    requires HostSound(h)
    ensures HostSound(ContainerRemove(h, c, o).0)
  {
    LosingContainersKeepsHostSound(h, ContainerRemove(h, c, o).0);
  }

  lemma StartingKeepsHostSound(h: Host, c: string, o: Outcome)
    requires HostSound(h)
    ensures HostSound(ContainerStart(h, c, o).0)
  {
    LosingContainersKeepsHostSound(h, ContainerStart(h, c, o).0);
  }

  lemma StoppingKeepsHostSound(h: Host, c: string, o: Outcome)
    requires HostSound(h)
    ensures HostSound(ContainerStop(h, c, o).0)
  {
    LosingContainersKeepsHostSound(h, ContainerStop(h, c, o).0);
  }

  lemma ActKeepsHostSound(s: State, pid: nat, o: Outcome, c: string, port: int)
    requires HostSound(s.host) && pid in s.procs && c !in s.host.issued
    ensures HostSound(Act(s, pid, o, c, port).host)
  {
    var Proc(req, call) := s.procs[pid];
    match call
    case MakeContainer(_) =>
      CreationKeepsHostSound(s.host, c, req.id, port, if o.Done? then None else Some(o.text));
    case Launch(container, _) => StartingKeepsHostSound(s.host, container, o);
    case ClearStale(container) => RemovalKeepsHostSound(s.host, container, o);
    case Halt(container) => StoppingKeepsHostSound(s.host, container, o);
    case RemoveContainer(container) => RemovalKeepsHostSound(s.host, container, o);
    case _ =>
  }

  lemma ActKeepsProcsSound(s: State, pid: nat, o: Outcome, c: string, port: int)
    requires ProcsSound(s.procs) && pid in s.procs
    ensures ProcsSound(Act(s, pid, o, c, port).procs)
  {
  }

  lemma NextKeepsInv(s: State, step: Step)
    requires Inv(s)
    ensures Inv(Next(s, step))
  {
    match step
    case Do(pid, o, c, port) =>
      if pid in s.procs && c !in s.host.issued {
        ActKeepsHostSound(s, pid, o, c, port);
        ActKeepsProcsSound(s, pid, o, c, port);
      }
    case DockerRm(c) => RemovalKeepsHostSound(s.host, c, Done);
    case Exit(c) => StoppingKeepsHostSound(s.host, c, Done);
    case Restart(c) => StartingKeepsHostSound(s.host, c, Done);
    case Play(c, chunk) => LosingContainersKeepsHostSound(s.host, Saved(s.host, c, chunk));
    case _ =>
  }

  lemma {:induction false} RunKeepsInv(s: State, run: seq<Step>, n: nat)
    requires Inv(s) && n <= |run|
    ensures Inv(At(s, run, n))
  {
    if n > 0 {
      RunKeepsInv(s, run, n - 1);
      NextKeepsInv(At(s, run, n - 1), run[n - 1]);
    }
  }

  /** However requests interleave, every container of a server mounts that server's own volume, a server has at most
      one container, and no two containers share a volume. */
  lemma ContainersKeepToTheirVolumes(s: State, run: seq<Step>, n: nat, c: string, d: string)
    requires Inv(s) && n <= |run|
    requires var h := At(s, run, n).host; c in h.containers && d in h.containers
    ensures var h := At(s, run, n).host;
            && (forall id :: h.containers[c].name == ContainerName(id) <==> h.containers[c].volume == VolumeName(id))
            && (h.containers[c].volume == h.containers[d].volume ==> c == d)
  {
    RunKeepsInv(s, run, n);
    var h := At(s, run, n).host;
    var a :| h.containers[c].name == ContainerName(a) && h.containers[c].volume == VolumeName(a);
    var b :| h.containers[d].name == ContainerName(b) && h.containers[d].volume == VolumeName(b);
    forall id { NamesAreInjective(a, id); }
    NamesAreInjective(a, b);
  }

  // --- durability ---

  /** At step `i` a delete request for this very server, with deleteData=true, removes the volume. */
  ghost predicate DataDeleted(s: State, run: seq<Step>, id: string, i: nat)
    requires i < |run|
  {
    var before := At(s, run, i);
    && run[i].Do? && run[i].pid in before.procs
    && before.procs[run[i].pid] == Proc(DeleteServer(id, true), RemoveVolume)
  }

  /** The volume is there, with everything that was written to it. */
  ghost predicate Holds(h: Host, volume: string, content: seq<string>) {
    volume in h.volumes && content <= h.volumes[volume]
  }

  lemma NextKeepsVolume(s: State, step: Step, id: string, content: seq<string>)
    requires Inv(s) && Holds(s.host, VolumeName(id), content)
    requires !(step.Do? && step.pid in s.procs && s.procs[step.pid] == Proc(DeleteServer(id, true), RemoveVolume))
    ensures Holds(Next(s, step).host, VolumeName(id), content)
  {
    if step.Do? && step.pid in s.procs {
      NamesAreInjective(s.procs[step.pid].req.id, id);
    }
  }

  /** A world is never lost: over any run its volume keeps everything ever written to it, unless a delete request for
      that same server, with deleteData=true, took it. */
  lemma {:induction false} WorldOutlivesEverything(s: State, run: seq<Step>, n: nat, id: string)
    requires Inv(s) && n <= |run| && VolumeName(id) in s.host.volumes
    ensures Holds(At(s, run, n).host, VolumeName(id), s.host.volumes[VolumeName(id)])
            || exists i: nat :: i < n && DataDeleted(s, run, id, i)
  {
    if n > 0 {
      WorldOutlivesEverything(s, run, n - 1, id);
      if forall i: nat | i < n :: !DataDeleted(s, run, id, i) {
        RunKeepsInv(s, run, n - 1);
        assert !DataDeleted(s, run, id, n - 1);
        NextKeepsVolume(At(s, run, n - 1), run[n - 1], id, s.host.volumes[VolumeName(id)]);
      }
    }
  }

  /** Whatever a running game saves goes to its server's volume, after what was there, and stays for as long. */
  lemma {:induction false} SavesLast(s: State, run: seq<Step>, n: nat, c: string, chunk: string, id: string)
    requires Inv(s) && 1 <= n <= |run| && run[0] == Play(c, chunk)
    requires c in s.host.containers && s.host.containers[c].running
    requires s.host.containers[c].volume == VolumeName(id) && VolumeName(id) in s.host.volumes
    ensures Holds(At(s, run, n).host, VolumeName(id), s.host.volumes[VolumeName(id)] + [chunk])
            || exists i: nat :: i < n && DataDeleted(s, run, id, i)
  {
    if n == 1 {
      assert At(s, run, 1) == Next(s, run[0]);
    } else {
      SavesLast(s, run, n - 1, c, chunk, id);
      if forall i: nat | i < n :: !DataDeleted(s, run, id, i) {
        RunKeepsInv(s, run, n - 1);
        assert !DataDeleted(s, run, id, n - 1);
        NextKeepsVolume(At(s, run, n - 1), run[n - 1], id, s.host.volumes[VolumeName(id)] + [chunk]);
      }
    }
  }
}
