/** Containers and records under interleaving, call by call. Requests on different servers run at the same time, in any
    order; only requests on one server wait for each other. Every call and statement may fail, except the write of a new
    container's ID. */
module PerServer {
  import opened Text
  import opened Models
  import opened DockerHosts
  import opened Durability

  /** A state of the interleaved machine, and the port column beside its rows. */
  datatype Table = Table(s: State, ports: map<string, int>)

  /** A new row gets the port its insert carries; a row keeps its port for life. */
  function Move(t: Table, step: Step): Table {
    var s' := Next(t.s, step);
    Table(s', map id | id in s'.rows :: if id in t.ports then t.ports[id] else if step.Do? then step.port else 0)
  }

  // --- the discipline ---

  /** A request begins when no other is in flight for its server, and a create under a new ID. The UNIQUE column refuses a
      port that is taken; a container is published on its record's port; the ID of a new container gets written. Rows change
      by these requests only: a rename keeps ports and container IDs, and so does a change of owner. */
  ghost predicate Disciplined(t: Table, step: Step) {
    match step
    case Begin(pid, req) =>
      pid !in t.s.procs ==>
        (forall p | p in t.s.procs :: t.s.procs[p].req.id != req.id) && (req.CreateServer? ==> req.id !in t.s.rows)
    case Do(pid, o, c, port) => pid in t.s.procs ==> c != "" && CallDisciplined(t, t.s.procs[pid], o, port)
    case Abandon(pid) => pid in t.s.procs ==> !t.s.procs[pid].call.SaveContainer?
    case Rewrite(rows) => rows == t.s.rows
    case _ => true
  }

  ghost predicate CallDisciplined(t: Table, p: Proc, o: Outcome, port: int) {
    match p.call
    case InsertRow => !o.Refused? ==> port !in t.ports.Values
    case MakeContainer(_) => p.req.id in t.ports ==> port == t.ports[p.req.id]
    case SaveContainer(_, _) => !o.Refused?
    case _ => true
  }

  // --- the invariant ---

  /** The request in flight for `id` is about to record container `c`. */
  ghost predicate Saving(procs: map<nat, Proc>, id: string, c: string) {
    exists p :: p in procs && Saves(procs[p], id, c)
  }

  predicate Saves(p: Proc, id: string, c: string) {
    p.req.id == id && p.call.SaveContainer? && p.call.container == c
  }

  /** Container `c` is exactly what record `id` says, and its ID is on the record or just about to be. */
  ghost predicate Backs(t: Table, id: string, c: string)
    requires c in t.s.host.containers
  {
    && id in t.s.rows && id in t.ports
    && t.s.host.containers[c].name == ContainerName(id)
    && t.s.host.containers[c].volume == VolumeName(id)
    && t.s.host.containers[c].port == t.ports[id]
    && (t.s.rows[id] == c || Saving(t.s.procs, id, c))
  }

  ghost predicate Backed(t: Table, c: string)
    requires c in t.s.host.containers
  {
    exists id :: Backs(t, id, c)
  }

  ghost predicate AllBacked(t: Table) {
    forall c | c in t.s.host.containers :: Backed(t, c) && t.s.host.containers[c].volume in t.s.host.volumes
  }

  ghost predicate Columns(t: Table) {
    && t.ports.Keys == t.s.rows.Keys
    && (forall a, b | a in t.ports && b in t.ports && t.ports[a] == t.ports[b] :: a == b)
    && (forall a | a in t.s.rows :: t.s.rows[a] in t.s.host.issued + {""})
    && (forall a, b | a in t.s.rows && b in t.s.rows && t.s.rows[a] == t.s.rows[b] != "" :: a == b)
    && "" !in t.s.host.issued
  }

  /** What a request in flight may count on. */
  ghost predicate ProcSound(s: State, p: Proc) {
    match p.call
    case InsertRow => p.req.id !in s.rows
    case LoadRow => true
    case WriteStatus => true
    case SaveContainer(c, _) =>
      && p.req.id in s.rows && c in s.host.issued && c !in s.rows.Values
      && forall d | d in s.host.containers && s.host.containers[d].name == ContainerName(p.req.id) :: d == c
    case RemoveContainer(known) => p.req.id in s.rows && s.rows[p.req.id] == known
    case RemoveVolume => p.req.id in s.rows && !NameInUse(s.host, ContainerName(p.req.id))
    case DropRow => p.req.id in s.rows && !NameInUse(s.host, ContainerName(p.req.id))
    case _ => p.req.id in s.rows
  }

  /** One request per server, each sound, and no two about to record the same container. */
  ghost predicate Procs(s: State) {
    && (forall p | p in s.procs :: ProcSound(s, s.procs[p]))
    && (forall p, q | p in s.procs && q in s.procs && s.procs[p].req.id == s.procs[q].req.id :: p == q)
    && (forall p, q | p in s.procs && q in s.procs && s.procs[p].call.SaveContainer? && s.procs[q].call.SaveContainer?
                      && s.procs[p].call.container == s.procs[q].call.container :: p == q)
  }

  ghost predicate Sound(t: Table) {
    Columns(t) && Procs(t.s) && AllBacked(t) && Durability.Inv(t.s)
  }

  // --- steps that make no container and write no row ---

  /** Only request `pid` moves on, and it is not about to record a container, before or after. */
  ghost predicate OnlyMoves(procs: map<nat, Proc>, procs': map<nat, Proc>, pid: nat) {
    && (forall q | q != pid :: q in procs' <==> q in procs)
    && (forall q | q in procs && q != pid :: procs'[q] == procs[q])
    && (pid in procs ==> !procs[pid].call.SaveContainer?)
    && (pid in procs' ==>
          && !procs'[pid].call.SaveContainer?
          && if pid in procs then procs'[pid].req == procs[pid].req
             else forall q | q in procs :: procs[q].req.id != procs'[pid].req.id)
  }

  /** Containers only vanish or change their running flag, and no mounted volume goes. */
  ghost predicate Shrinks(h: Host, h': Host) {
    && h'.issued == h.issued && h'.containers.Keys <= h.containers.Keys
    && forall c | c in h'.containers ::
         h'.containers[c].(running := false) == h.containers[c].(running := false) && h'.containers[c].volume in h'.volumes
  }

  lemma QuietStepKeepsBacked(t: Table, t': Table, pid: nat)
    requires AllBacked(t)
    requires t'.s.rows == t.s.rows && t'.ports == t.ports
    requires Shrinks(t.s.host, t'.s.host) && OnlyMoves(t.s.procs, t'.s.procs, pid)
    ensures AllBacked(t')
  {
    forall c | c in t'.s.host.containers ensures Backed(t', c) {
      assert Backed(t, c);
      var id :| Backs(t, id, c);
      if t.s.rows[id] != c {
        var p :| p in t.s.procs && Saves(t.s.procs[p], id, c);
        assert p in t'.s.procs && Saves(t'.s.procs[p], id, c);
      }
      assert Backs(t', id, c);
    }
  }

  lemma QuietStepKeepsProcs(s: State, s': State, pid: nat)
    requires Procs(s) && s'.rows == s.rows && Shrinks(s.host, s'.host) && OnlyMoves(s.procs, s'.procs, pid)
    requires pid in s'.procs ==> ProcSound(s', s'.procs[pid])
    ensures Procs(s')
  {
    forall p | p in s'.procs ensures ProcSound(s', s'.procs[p]) {
      if p != pid { assert ProcSound(s, s.procs[p]); }
    }
  }

  /** Request `pid` moves on soundly, and nothing else happens but to containers that vanish, start or stop. */
  ghost predicate MovesQuietly(s: State, s': State, pid: nat) {
    && s'.rows == s.rows && Shrinks(s.host, s'.host) && OnlyMoves(s.procs, s'.procs, pid)
    && (pid in s'.procs ==> ProcSound(s', s'.procs[pid]))
  }

  lemma QuietStepKeepsSound(t: Table, t': Table, pid: nat)
    requires Sound(t) && Durability.Inv(t'.s)
    requires t'.ports == t.ports && MovesQuietly(t.s, t'.s, pid)
    ensures Sound(t')
  {
    QuietStepKeepsBacked(t, t', pid);
    QuietStepKeepsProcs(t.s, t'.s, pid);
  }

  /** The one request of a server is the only one that could be about to record a container for it. */
  lemma NothingPending(s: State, pid: nat, c: string)
    requires Procs(s) && pid in s.procs && !s.procs[pid].call.SaveContainer?
    ensures !Saving(s.procs, s.procs[pid].req.id, c)
  {
    forall p | p in s.procs ensures !Saves(s.procs[p], s.procs[pid].req.id, c) {
    }
  }

  /** The container of a record whose request is not about to record one is the one on the record. */
  lemma NamedIsRecorded(t: Table, pid: nat, c: string)
    requires Sound(t) && pid in t.s.procs && !t.s.procs[pid].call.SaveContainer?
    requires c in t.s.host.containers && t.s.host.containers[c].name == ContainerName(t.s.procs[pid].req.id)
    ensures t.s.procs[pid].req.id in t.s.rows && t.s.rows[t.s.procs[pid].req.id] == c
  {
    assert Backed(t, c);
    var a :| Backs(t, a, c);
    NamesAreInjective(a, t.s.procs[pid].req.id);
    NothingPending(t.s, pid, c);
  }

  /** With the recorded container gone, no container of that server is left. */
  lemma GoneLeavesNone(t: Table, pid: nat, h: Host)
    requires Sound(t) && pid in t.s.procs && !t.s.procs[pid].call.SaveContainer?
    requires t.s.procs[pid].req.id in t.s.rows
    requires Shrinks(t.s.host, h) && t.s.rows[t.s.procs[pid].req.id] !in h.containers
    ensures !NameInUse(h, ContainerName(t.s.procs[pid].req.id))
  {
    forall c | c in h.containers ensures h.containers[c].name != ContainerName(t.s.procs[pid].req.id) {
      if t.s.host.containers[c].name == ContainerName(t.s.procs[pid].req.id) { NamedIsRecorded(t, pid, c); }
    }
  }

  lemma RemovalShrinks(t: Table, c: string, o: Outcome)
    requires AllBacked(t)
    ensures Shrinks(t.s.host, ContainerRemove(t.s.host, c, o).0)
    ensures Shrinks(t.s.host, ContainerStart(t.s.host, c, o).0)
    ensures Shrinks(t.s.host, ContainerStop(t.s.host, c, o).0)
  {
  }

  lemma VolumesShrink(t: Table, volume: string, o: Outcome)
    requires AllBacked(t)
    ensures Shrinks(t.s.host, VolumeCreate(t.s.host, volume, o).0)
    ensures Shrinks(t.s.host, VolumeRemove(t.s.host, volume, o).0)
  {
  }

  /** Calls that make no container and write no row. */
  predicate Quiet(call: Call) {
    !call.InsertRow? && !call.MakeContainer? && !call.SaveContainer? && !call.DropRow?
  }

  /** Going on to another call on the same server, with the host as `h`. */
  lemma GoesOn(s: State, h: Host, pid: nat, call: Call)
    requires pid in s.procs && !s.procs[pid].call.SaveContainer? && !call.SaveContainer?
    requires Shrinks(s.host, h) && ProcSound(s.(host := h), Proc(s.procs[pid].req, call))
    ensures MovesQuietly(s, Then(s.(host := h), pid, s.procs[pid].req, call), pid)
  {
  }

  lemma Ends(s: State, h: Host, pid: nat)
    requires pid in s.procs && !s.procs[pid].call.SaveContainer? && Shrinks(s.host, h)
    ensures MovesQuietly(s, Finish(s.(host := h), pid), pid)
  {
  }

  /** After a removal that worked, or found nothing to remove, a delete may go on to the volume or the row. */
  lemma RemovalClears(t: Table, pid: nat, o: Outcome)
    requires Sound(t) && pid in t.s.procs && t.s.procs[pid].call.RemoveContainer?
    ensures var (h, error) := ContainerRemove(t.s.host, t.s.procs[pid].call.container, o);
            && Shrinks(t.s.host, h) && t.s.procs[pid].req.id in t.s.rows
            && (error.None? || error.value.NotFound? ==> !NameInUse(h, ContainerName(t.s.procs[pid].req.id)))
  {
    assert ProcSound(t.s, t.s.procs[pid]);
    var container := t.s.procs[pid].call.container;
    RemovalShrinks(t, container, o);
    var (h, error) := ContainerRemove(t.s.host, container, o);
    if error.None? || error.value.NotFound? {
      RemovedIsGone(t.s.host, container, o);
      GoneLeavesNone(t, pid, h);
    }
  }

  lemma RemovedIsGone(h: Host, c: string, o: Outcome)
    requires var error := ContainerRemove(h, c, o).1; error.None? || error.value.NotFound?
    ensures c !in ContainerRemove(h, c, o).0.containers
  {
  }

  lemma RemoveIsQuiet(t: Table, pid: nat, o: Outcome, c: string, port: int)
    requires Sound(t) && pid in t.s.procs && t.s.procs[pid].call.RemoveContainer?
    ensures MovesQuietly(t.s, Act(t.s, pid, o, c, port), pid)
  {
    RemovalClears(t, pid, o);
    var h := ContainerRemove(t.s.host, t.s.procs[pid].call.container, o).0;
    GoesOn(t.s, h, pid, Act(t.s, pid, o, c, port).procs[pid].call);
  }

  lemma VolumeCallIsQuiet(t: Table, pid: nat, o: Outcome, c: string, port: int)
    requires Sound(t) && pid in t.s.procs && (t.s.procs[pid].call.MakeVolume? || t.s.procs[pid].call == RemoveVolume)
    ensures MovesQuietly(t.s, Act(t.s, pid, o, c, port), pid)
  {
    assert ProcSound(t.s, t.s.procs[pid]);
    VolumesShrink(t, VolumeName(t.s.procs[pid].req.id), o);
    var s' := Act(t.s, pid, o, c, port);
    GoesOn(t.s, s'.host, pid, s'.procs[pid].call);
  }

  lemma RunningCallIsQuiet(t: Table, pid: nat, o: Outcome, c: string, port: int)
    requires Sound(t) && pid in t.s.procs
    requires var call := t.s.procs[pid].call; call.Launch? || call.ClearStale? || call.Halt?
    ensures MovesQuietly(t.s, Act(t.s, pid, o, c, port), pid)
  {
    assert ProcSound(t.s, t.s.procs[pid]);
    RemovalShrinks(t, t.s.procs[pid].call.container, o);
    var s' := Act(t.s, pid, o, c, port);
    GoesOn(t.s, s'.host, pid, s'.procs[pid].call);
  }

  lemma HostStays(t: Table)
    requires AllBacked(t)
    ensures Shrinks(t.s.host, t.s.host)
  {
  }

  /** A delete whose record names no container goes straight to its row: there is no container to lose. */
  lemma LoadIsQuiet(t: Table, pid: nat, o: Outcome, c: string, port: int)
    requires Sound(t) && pid in t.s.procs && t.s.procs[pid].call == LoadRow
    ensures MovesQuietly(t.s, Act(t.s, pid, o, c, port), pid)
  {
    var id := t.s.procs[pid].req.id;
    HostStays(t);
    if id in t.s.rows && t.s.rows[id] == "" { GoneLeavesNone(t, pid, t.s.host); }
    var s' := Act(t.s, pid, o, c, port);
    if pid in s'.procs {
      GoesOn(t.s, t.s.host, pid, s'.procs[pid].call);
    } else {
      Ends(t.s, t.s.host, pid);
    }
  }

  lemma QuietCall(t: Table, pid: nat, o: Outcome, c: string, port: int)
    requires Sound(t) && pid in t.s.procs && Quiet(t.s.procs[pid].call)
    ensures MovesQuietly(t.s, Act(t.s, pid, o, c, port), pid)
  {
    match t.s.procs[pid].call
    case LoadRow => LoadIsQuiet(t, pid, o, c, port);
    case MakeVolume(_) => VolumeCallIsQuiet(t, pid, o, c, port);
    case RemoveVolume => VolumeCallIsQuiet(t, pid, o, c, port);
    case RemoveContainer(_) => RemoveIsQuiet(t, pid, o, c, port);
    case WriteStatus =>
      HostStays(t);
      Ends(t.s, t.s.host, pid);
    case _ => RunningCallIsQuiet(t, pid, o, c, port);
  }

  // --- the four calls that make a container or write a row ---

  /** What an insert writes: nothing, or one row, without a container and on a port that nobody had. */
  lemma InsertWrites(t: Table, pid: nat, o: Outcome, c: string, port: int)
    requires Sound(t) && pid in t.s.procs && c !in t.s.host.issued && t.s.procs[pid].call == InsertRow
    ensures var t', id := Move(t, Do(pid, o, c, port)), t.s.procs[pid].req.id;
            && id !in t.s.rows && t'.s.host == t.s.host
            && t'.s.rows == (if o.Refused? then t.s.rows else t.s.rows[id := ""])
            && t'.ports == (if o.Refused? then t.ports else t.ports[id := port])
            && OnlyMoves(t.s.procs, t'.s.procs, pid)
            && (pid in t'.s.procs ==> !o.Refused? && t'.s.procs[pid].call.MakeVolume?)
  {
    assert ProcSound(t.s, t.s.procs[pid]);
  }

  lemma InsertKeepsBacked(t: Table, pid: nat, o: Outcome, c: string, port: int)
    requires Sound(t) && pid in t.s.procs && c !in t.s.host.issued && t.s.procs[pid].call == InsertRow
    ensures AllBacked(Move(t, Do(pid, o, c, port)))
  {
    var t' := Move(t, Do(pid, o, c, port));
    InsertWrites(t, pid, o, c, port);
    forall d | d in t'.s.host.containers ensures Backed(t', d) {
      assert Backed(t, d);
      var a :| Backs(t, a, d);
      KeepsBacking(t, t', a, d, pid);
    }
  }

  lemma InsertKeepsProcs(t: Table, pid: nat, o: Outcome, c: string, port: int)
    requires Sound(t) && pid in t.s.procs && c !in t.s.host.issued && t.s.procs[pid].call == InsertRow
    ensures Procs(Move(t, Do(pid, o, c, port)).s)
  {
    var s' := Move(t, Do(pid, o, c, port)).s;
    InsertWrites(t, pid, o, c, port);
    forall p | p in s'.procs ensures ProcSound(s', s'.procs[p]) {
      if p != pid { assert ProcSound(t.s, t.s.procs[p]); }
    }
  }

  lemma InsertKeepsSound(t: Table, pid: nat, o: Outcome, c: string, port: int)
    requires Sound(t) && pid in t.s.procs && c !in t.s.host.issued && t.s.procs[pid].call == InsertRow
    requires Disciplined(t, Do(pid, o, c, port)) && Durability.Inv(Move(t, Do(pid, o, c, port)).s)
    ensures Sound(Move(t, Do(pid, o, c, port)))
  {
    InsertWrites(t, pid, o, c, port);
    InsertKeepsBacked(t, pid, o, c, port);
    InsertKeepsProcs(t, pid, o, c, port);
  }

  /** A record goes on backing its container while its row and any pending write of its ID stay. */
  lemma KeepsBacking(t: Table, t': Table, a: string, d: string, pid: nat)
    requires d in t.s.host.containers && d in t'.s.host.containers && Backs(t, a, d)
    requires t'.s.host.containers[d] == t.s.host.containers[d]
    requires a in t'.s.rows && a in t'.ports && t'.s.rows[a] == t.s.rows[a] && t'.ports[a] == t.ports[a]
    requires forall q | q in t.s.procs && q != pid :: q in t'.s.procs && t'.s.procs[q] == t.s.procs[q]
    requires pid in t.s.procs ==> !t.s.procs[pid].call.SaveContainer?
    ensures Backs(t', a, d)
  {
    if t.s.rows[a] != d {
      var p :| p in t.s.procs && Saves(t.s.procs[p], a, d);
      assert p in t'.s.procs && Saves(t'.s.procs[p], a, d);
    }
  }

  /** What making a container does: nothing, or one new container, published as the step says, whose ID is to be
      recorded next. */
  lemma MakeMakes(t: Table, pid: nat, o: Outcome, c: string, port: int)
    requires Sound(t) && pid in t.s.procs && c !in t.s.host.issued && c != "" && t.s.procs[pid].call.MakeContainer?
    ensures var t', p := Move(t, Do(pid, o, c, port)), t.s.procs[pid];
            var made := Container(ContainerName(p.req.id), port, VolumeName(p.req.id), false);
            && p.req.id in t.s.rows && t'.s.rows == t.s.rows && t'.ports == t.ports
            && t'.s == Act(t.s, pid, o, c, port) && Columns(t')
            && (forall q | q in t.s.procs && q != pid :: q in t'.s.procs && t'.s.procs[q] == t.s.procs[q])
            && (t'.s.host == t.s.host
                || (&& t'.s.host.containers == t.s.host.containers[c := made]
                    && t'.s.host.volumes == WithVolume(t.s.host, made.volume).volumes
                    && pid in t'.s.procs && Saves(t'.s.procs[pid], p.req.id, c)))
  {
    assert ProcSound(t.s, t.s.procs[pid]);
  }

  lemma MakeKeepsBacked(t: Table, t': Table, pid: nat, c: string, port: int)
    requires Sound(t) && pid in t.s.procs && !t.s.procs[pid].call.SaveContainer? && t.s.procs[pid].req.id in t.s.rows
    requires t.ports[t.s.procs[pid].req.id] == port && c !in t.s.host.issued
    requires t'.s.rows == t.s.rows && t'.ports == t.ports
    requires forall q | q in t.s.procs && q != pid :: q in t'.s.procs && t'.s.procs[q] == t.s.procs[q]
    requires var id := t.s.procs[pid].req.id;
             var made := Container(ContainerName(id), port, VolumeName(id), false);
             && t'.s.host.containers == t.s.host.containers[c := made]
             && t'.s.host.volumes == WithVolume(t.s.host, made.volume).volumes
             && pid in t'.s.procs && Saves(t'.s.procs[pid], id, c)
    ensures AllBacked(t')
  {
    forall d | d in t'.s.host.containers
      ensures Backed(t', d) && t'.s.host.containers[d].volume in t'.s.host.volumes
    {
      if d == c {
        assert Backs(t', t.s.procs[pid].req.id, c);
      } else {
        assert Backed(t, d);
        var a :| Backs(t, a, d);
        KeepsBacking(t, t', a, d, pid);
      }
    }
  }

  /** No container made: everything is backed as before. */
  lemma SameHostKeepsBacked(t: Table, t': Table, pid: nat)
    requires Sound(t) && pid in t.s.procs && !t.s.procs[pid].call.SaveContainer?
    requires t'.s.rows == t.s.rows && t'.ports == t.ports && t'.s.host == t.s.host
    requires forall q | q in t.s.procs && q != pid :: q in t'.s.procs && t'.s.procs[q] == t.s.procs[q]
    ensures AllBacked(t')
  {
    forall d | d in t'.s.host.containers ensures Backed(t', d) {
      assert Backed(t, d);
      var a :| Backs(t, a, d);
      KeepsBacking(t, t', a, d, pid);
    }
  }

  /** A container ID that Docker has just minted is on no record and on its way to none. */
  lemma MintedIsNew(t: Table, c: string)
    requires Columns(t) && Procs(t.s) && c !in t.s.host.issued && c != ""
    ensures c !in t.s.rows.Values
    ensures forall p | p in t.s.procs && t.s.procs[p].call.SaveContainer? :: t.s.procs[p].call.container != c
  {
    assert forall p | p in t.s.procs :: ProcSound(t.s, t.s.procs[p]);
  }

  lemma MakeKeepsOneProc(t: Table, pid: nat, o: Outcome, c: string, port: int, p: nat)
    requires Procs(t.s) && pid in t.s.procs && t.s.procs[pid].call.MakeContainer?
    requires c !in t.s.host.issued && c !in t.s.rows.Values
    requires p in Act(t.s, pid, o, c, port).procs
    ensures ProcSound(Act(t.s, pid, o, c, port), Act(t.s, pid, o, c, port).procs[p])
  {
    assert ProcSound(t.s, t.s.procs[pid]);
    if p != pid {
      assert ProcSound(t.s, t.s.procs[p]);
      NamesAreInjective(t.s.procs[pid].req.id, t.s.procs[p].req.id);
    }
  }

  lemma MakeKeepsProcs(t: Table, pid: nat, o: Outcome, c: string, port: int)
    requires Sound(t) && pid in t.s.procs && c !in t.s.host.issued && c != "" && t.s.procs[pid].call.MakeContainer?
    ensures Procs(Act(t.s, pid, o, c, port))
  {
    var s' := Act(t.s, pid, o, c, port);
    MintedIsNew(t, c);
    forall p | p in s'.procs ensures ProcSound(s', s'.procs[p]) {
      MakeKeepsOneProc(t, pid, o, c, port, p);
    }
  }

  lemma MakeKeepsSound(t: Table, pid: nat, o: Outcome, c: string, port: int)
    requires Sound(t) && pid in t.s.procs && c !in t.s.host.issued && t.s.procs[pid].call.MakeContainer?
    requires Disciplined(t, Do(pid, o, c, port)) && Durability.Inv(Move(t, Do(pid, o, c, port)).s)
    ensures Sound(Move(t, Do(pid, o, c, port)))
  {
    var t' := Move(t, Do(pid, o, c, port));
    MakeMakes(t, pid, o, c, port);
    if t'.s.host == t.s.host {
      SameHostKeepsBacked(t, t', pid);
    } else {
      MakeKeepsBacked(t, t', pid, c, port);
    }
    MakeKeepsProcs(t, pid, o, c, port);
  }

  /** What recording a container writes: one row. */
  lemma SaveWrites(t: Table, pid: nat, o: Outcome, c: string, port: int)
    requires Sound(t) && pid in t.s.procs && c !in t.s.host.issued && t.s.procs[pid].call.SaveContainer? && !o.Refused?
    ensures var t' := Move(t, Do(pid, o, c, port));
            var id, made := t.s.procs[pid].req.id, t.s.procs[pid].call.container;
            && id in t.s.rows && t'.s.rows == t.s.rows[id := made] && t'.ports == t.ports && t'.s.host == t.s.host
            && (forall q | q != pid :: q in t'.s.procs <==> q in t.s.procs)
            && (forall q | q in t.s.procs && q != pid :: t'.s.procs[q] == t.s.procs[q])
            && (pid in t'.s.procs ==> t'.s.procs[pid].req == t.s.procs[pid].req && t'.s.procs[pid].call.Launch?)
  {
    assert ProcSound(t.s, t.s.procs[pid]);
  }

  lemma SaveKeepsBacked(t: Table, t': Table, pid: nat)
    requires Sound(t) && pid in t.s.procs && t.s.procs[pid].call.SaveContainer? && t.s.procs[pid].req.id in t.s.rows
    requires t'.s.rows == t.s.rows[t.s.procs[pid].req.id := t.s.procs[pid].call.container]
    requires t'.ports == t.ports && t'.s.host == t.s.host
    requires forall q | q in t.s.procs && q != pid :: q in t'.s.procs && t'.s.procs[q] == t.s.procs[q]
    ensures AllBacked(t')
  {
    var id, made := t.s.procs[pid].req.id, t.s.procs[pid].call.container;
    assert ProcSound(t.s, t.s.procs[pid]);
    forall d | d in t'.s.host.containers ensures Backed(t', d) {
      assert Backed(t, d);
      var a :| Backs(t, a, d);
      if a == id {
        assert d == made;
      } else if t.s.rows[a] != d {
        var p :| p in t.s.procs && Saves(t.s.procs[p], a, d);
        assert p in t'.s.procs && Saves(t'.s.procs[p], a, d);
      }
      assert Backs(t', a, d);
    }
  }

  lemma SaveKeepsProcs(t: Table, pid: nat, o: Outcome, c: string, port: int)
    requires Sound(t) && pid in t.s.procs && c !in t.s.host.issued && t.s.procs[pid].call.SaveContainer? && !o.Refused?
    ensures Procs(Move(t, Do(pid, o, c, port)).s)
  {
    var s' := Move(t, Do(pid, o, c, port)).s;
    SaveWrites(t, pid, o, c, port);
    assert ProcSound(t.s, t.s.procs[pid]);
    forall p | p in s'.procs ensures ProcSound(s', s'.procs[p]) {
      if p != pid { assert ProcSound(t.s, t.s.procs[p]); }
    }
  }

  lemma SaveKeepsSound(t: Table, pid: nat, o: Outcome, c: string, port: int)
    requires Sound(t) && pid in t.s.procs && c !in t.s.host.issued && t.s.procs[pid].call.SaveContainer?
    requires Disciplined(t, Do(pid, o, c, port)) && Durability.Inv(Move(t, Do(pid, o, c, port)).s)
    ensures Sound(Move(t, Do(pid, o, c, port)))
  {
    assert ProcSound(t.s, t.s.procs[pid]);
    SaveWrites(t, pid, o, c, port);
    SaveKeepsBacked(t, Move(t, Do(pid, o, c, port)), pid);
    SaveKeepsProcs(t, pid, o, c, port);
  }

  /** What a delete writes last: its row goes. */
  lemma DropWrites(t: Table, pid: nat, o: Outcome, c: string, port: int)
    requires Sound(t) && pid in t.s.procs && c !in t.s.host.issued && t.s.procs[pid].call == DropRow
    ensures var t', gone := Move(t, Do(pid, o, c, port)), if o.Refused? then {} else {t.s.procs[pid].req.id};
            && t'.s.rows == t.s.rows - gone && t'.ports == t.ports - gone
            && t'.s.host == t.s.host && t'.s.procs == t.s.procs - {pid}
  {
    assert t.s.rows - {} == t.s.rows && t.ports - {} == t.ports;
  }

  lemma DropKeepsBacked(t: Table, t': Table, pid: nat, gone: set<string>)
    requires Sound(t) && pid in t.s.procs && t.s.procs[pid].call == DropRow && gone <= {t.s.procs[pid].req.id}
    requires t'.s.rows == t.s.rows - gone && t'.ports == t.ports - gone
    requires t'.s.host == t.s.host && t'.s.procs == t.s.procs - {pid}
    ensures AllBacked(t')
  {
    assert ProcSound(t.s, t.s.procs[pid]);
    forall d | d in t'.s.host.containers ensures Backed(t', d) {
      assert Backed(t, d);
      var a :| Backs(t, a, d);
      KeepsBacking(t, t', a, d, pid);
    }
  }

  lemma DropKeepsSound(t: Table, pid: nat, o: Outcome, c: string, port: int)
    requires Sound(t) && pid in t.s.procs && c !in t.s.host.issued && t.s.procs[pid].call == DropRow
    requires Durability.Inv(Move(t, Do(pid, o, c, port)).s)
    ensures Sound(Move(t, Do(pid, o, c, port)))
  {
    var t' := Move(t, Do(pid, o, c, port));
    DropWrites(t, pid, o, c, port);
    DropKeepsBacked(t, t', pid, if o.Refused? then {} else {t.s.procs[pid].req.id});
    forall p | p in t'.s.procs ensures ProcSound(t'.s, t'.s.procs[p]) {
      assert ProcSound(t.s, t.s.procs[p]);
    }
  }

  lemma CallKeepsSound(t: Table, pid: nat, o: Outcome, c: string, port: int)
    requires Sound(t) && pid in t.s.procs && c !in t.s.host.issued
    requires Disciplined(t, Do(pid, o, c, port)) && Durability.Inv(Move(t, Do(pid, o, c, port)).s)
    ensures Sound(Move(t, Do(pid, o, c, port)))
  {
    match t.s.procs[pid].call
    case InsertRow => InsertKeepsSound(t, pid, o, c, port);
    case MakeContainer(_) => MakeKeepsSound(t, pid, o, c, port);
    case SaveContainer(_, _) => SaveKeepsSound(t, pid, o, c, port);
    case DropRow => DropKeepsSound(t, pid, o, c, port);
    case _ =>
      var t' := Move(t, Do(pid, o, c, port));
      QuietCall(t, pid, o, c, port);
      assert t'.ports == t.ports;
      QuietStepKeepsSound(t, t', pid);
  }

  lemma OutsideShrinks(t: Table, step: Step)
    requires AllBacked(t) && (step.DockerRm? || step.Exit? || step.Restart? || step.Play?)
    ensures Shrinks(t.s.host, Next(t.s, step).host)
  {
    match step
    case DockerRm(c) => RemovalShrinks(t, c, Done);
    case Exit(c) => RemovalShrinks(t, c, Done);
    case Restart(c) => RemovalShrinks(t, c, Done);
    case Play(_, _) =>
  }

  /** Every step that keeps the discipline keeps containers and records matched. */
  lemma MoveKeepsSound(t: Table, step: Step)
    requires Sound(t) && Disciplined(t, step)
    ensures Sound(Move(t, step))
  {
    NextKeepsInv(t.s, step);
    var t' := Move(t, step);
    match step
    case Do(pid, o, c, port) =>
      if pid in t.s.procs && c !in t.s.host.issued {
        CallKeepsSound(t, pid, o, c, port);
      } else {
        assert t' == t;
      }
    case Begin(pid, req) =>
      assert t'.ports == t.ports;
      if pid in t.s.procs { assert t' == t; } else { QuietStepKeepsSound(t, t', pid); }
    case Abandon(pid) =>
      assert t'.ports == t.ports;
      QuietStepKeepsSound(t, t', pid);
    case Rewrite(_) => assert t' == t;
    case _ =>
      assert t'.ports == t.ports;
      OutsideShrinks(t, step);
      NobodyMoves(t, t');
  }

  lemma NobodyMoves(t: Table, t': Table)
    requires Sound(t) && Durability.Inv(t'.s) && t'.s.rows == t.s.rows && t'.ports == t.ports && t'.s.procs == t.s.procs
    requires Shrinks(t.s.host, t'.s.host)
    ensures Sound(t')
  {
    forall c | c in t'.s.host.containers ensures Backed(t', c) {
      assert Backed(t, c);
      var id :| Backs(t, id, c);
      assert Backs(t', id, c);
    }
    forall p | p in t'.s.procs ensures ProcSound(t'.s, t'.s.procs[p]) {
      assert ProcSound(t.s, t.s.procs[p]);
    }
  }

  // --- runs ---

  function After(t: Table, run: seq<Step>): Table
    decreases |run|
  {
    if run == [] then t else After(Move(t, run[0]), run[1..])
  }

  ghost predicate DisciplinedRun(t: Table, run: seq<Step>)
    decreases |run|
  {
    run == [] || (Disciplined(t, run[0]) && DisciplinedRun(Move(t, run[0]), run[1..]))
  }

  lemma {:induction false} RunKeepsSound(t: Table, run: seq<Step>)
    requires Sound(t) && DisciplinedRun(t, run)
    ensures Sound(After(t, run))
    decreases |run|
  {
    if run != [] {
      MoveKeepsSound(t, run[0]);
      RunKeepsSound(Move(t, run[0]), run[1..]);
    }
  }

  const EMPTY := Table(State(map[], Host(map[], map[], {}), map[]), map[])

  /** At every moment of every such history each container belongs to exactly one record, the only one with its name, its
      volume or its port. The record names it, or the request in flight for that server is about to write its ID. No two
      containers share a port, a volume or a name. */
  lemma EveryContainerHasItsRecord(run: seq<Step>, c: string) returns (id: string)
    requires DisciplinedRun(EMPTY, run) && c in After(EMPTY, run).s.host.containers
    ensures var t := After(EMPTY, run);
            && Backs(t, id, c)
            && (forall a | a in t.s.rows && a in t.ports ::
                  t.s.rows[a] == c || t.ports[a] == t.s.host.containers[c].port
                  || ContainerName(a) == t.s.host.containers[c].name || VolumeName(a) == t.s.host.containers[c].volume
                  ==> a == id)
            && (forall d | d in t.s.host.containers && d != c ::
                  && t.s.host.containers[d].port != t.s.host.containers[c].port
                  && t.s.host.containers[d].volume != t.s.host.containers[c].volume
                  && t.s.host.containers[d].name != t.s.host.containers[c].name)
  {
    RunKeepsSound(EMPTY, run);
    var t := After(EMPTY, run);
    assert Backed(t, c);
    id :| Backs(t, id, c);
    forall a | a in t.s.rows && t.s.rows[a] == c ensures a == id {
      RecordedOnce(t, a, id, c);
    }
    forall a { NamesAreInjective(a, id); }
    forall d | d in t.s.host.containers && d != c
      ensures t.s.host.containers[d].port != t.s.host.containers[c].port
      ensures t.s.host.containers[d].volume != t.s.host.containers[c].volume
      ensures t.s.host.containers[d].name != t.s.host.containers[c].name
    {
      assert Backed(t, d);
      var b :| Backs(t, b, d);
      NamesAreInjective(b, id);
    }
  }

  /** A container ID that is on one record is not on its way to another. */
  lemma RecordedOnce(t: Table, a: string, id: string, c: string)
    requires Sound(t) && a in t.s.rows && t.s.rows[a] == c && c in t.s.host.containers && Backs(t, id, c)
    ensures a == id
  {
    RecordedIsNotPending(t, a, id);
  }

  lemma RecordedIsNotPending(t: Table, a: string, id: string)
    requires Procs(t.s) && a in t.s.rows
    ensures !Saving(t.s.procs, id, t.s.rows[a])
  {
    forall p | p in t.s.procs ensures !Saves(t.s.procs[p], id, t.s.rows[a]) {
      assert ProcSound(t.s, t.s.procs[p]);
    }
  }

  /** Whenever nothing is in flight for a server, its record names its container, or it has none: whatever is going on with
      the others. */
  lemma AtRestTheRecordNamesIt(run: seq<Step>, id: string, c: string)
    requires DisciplinedRun(EMPTY, run)
    requires var s := After(EMPTY, run).s;
             && (forall p | p in s.procs :: s.procs[p].req.id != id)
             && c in s.host.containers && s.host.containers[c].name == ContainerName(id)
    ensures var s := After(EMPTY, run).s; id in s.rows && s.rows[id] == c
  {
    RunKeepsSound(EMPTY, run);
    var t := After(EMPTY, run);
    assert Backed(t, c);
    var a :| Backs(t, a, c);
    NamesAreInjective(a, id);
  }
}
