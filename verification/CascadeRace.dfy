/** Account deletion (`handleDeleteUser` in `internal/api/admin.go`) cut into its statements: the grouped count, the
    reassignment if the count found anything, and the final DELETE with its cascade. Other requests run their own
    statements in between. */
module CascadeRace {
  import opened Text
  import opened Models
  import opened Registries
  import opened DockerHosts
  import Invariant
  import Lifecycle

  /** A deletion past its checks: `actor` removes the account `target`. */
  datatype Deletion = Deletion(actor: string, target: string, reassign: bool)

  /** The statement the deletion is about to run; `Removed` and `GivenUp` are its two ends. */
  datatype Phase = Counting | Moving | Erasing | Removed | GivenUp

  datatype State = State(reg: Registry, phase: Phase)

  /** Every statement that some other request may run. */
  datatype Statement =
    | Insert(srv: Server)
    | Rewrite(srv: Server)
    | Settle(id: string, status: Status, message: string)
    | Record(id: string, containerID: string)
    | Drop(id: string)
    | Reassign(from: string, to: string)
    | AddUser(user: User)
    | SetRole(id: string, isAdmin: bool)
    | SetPassword(id: string, hash: string)
    | EraseUser(id: string)

  function Attempt(r: Registry, stmt: Statement): Result<Registry, StoreError> {
    match stmt
    case Insert(srv) => InsertServer(r, srv)
    case Rewrite(srv) => UpdateServer(r, srv)
    case Settle(id, status, message) => SetStatus(r, id, status, message)
    case Record(id, containerID) => SetContainerID(r, id, containerID)
    case Drop(id) => DeleteServer(r, id)
    case Reassign(from, to) => ReassignServers(r, from, to)
    case AddUser(u) => InsertUser(r, u)
    case SetRole(id, isAdmin) => SetUserAdmin(r, id, isAdmin)
    case SetPassword(id, hash) => SetUserPassword(r, id, hash)
    case EraseUser(id) => DeleteUser(r, id)
  }

  /** A refused statement changes nothing. */
  function Execute(r: Registry, stmt: Statement): Registry {
    var result := Attempt(r, stmt);
    if result.Ok? then result.value else r
  }

  datatype Step = Own | Other(stmt: Statement)

  /** The deletion's next statement. */
  function Advance(d: Deletion, s: State): State {
    match s.phase
    case Counting =>
      if Owned(s.reg.servers, d.target) == {} then s.(phase := Erasing)
      else s.(phase := if d.reassign then Moving else GivenUp)
    case Moving =>
      (match ReassignServers(s.reg, d.target, d.actor)
       case Ok(r) => State(r, Erasing)
       case Err(_) => s.(phase := GivenUp))
    case Erasing =>
      (match DeleteUser(s.reg, d.target)
       case Ok(r) => State(r, Removed)
       case Err(_) => s.(phase := GivenUp))
    case _ => s
  }

  /** When a deletion under way goes on, and that giving up changes nothing. */
  lemma GivesUpExactlyWhen(d: Deletion, s: State)
    requires s.phase in {Counting, Moving, Erasing}
    ensures var owns := exists t :: t in s.reg.servers && s.reg.servers[t].ownerID == d.target;
            var next := Advance(d, s);
            && (next.phase == GivenUp <==>
                  match s.phase
                  case Counting => owns && !d.reassign
                  case Moving => owns && d.actor !in s.reg.users
                  case _ => d.target !in s.reg.users)
            && (next.phase == GivenUp ==> next.reg == s.reg)
            && (next.phase == Removed ==> s.phase == Erasing)
            && (next.phase == Moving ==> s.phase == Counting && owns)
            && next.phase != Counting
  {
    if t :| t in Owned(s.reg.servers, d.target) { assert s.reg.servers[t].ownerID == d.target; }
    forall t | t in s.reg.servers && s.reg.servers[t].ownerID == d.target ensures t in Owned(s.reg.servers, d.target) {}
  }

  function Next(d: Deletion, s: State, step: Step): State {
    match step
    case Own => Advance(d, s)
    case Other(stmt) => s.(reg := Execute(s.reg, stmt))
  }

  /** The state after the first `n` steps of a deletion that starts with its count. */
  function At(d: Deletion, r: Registry, run: seq<Step>, n: nat): State
    requires n <= |run|
  {
    if n == 0 then State(r, Counting) else Next(d, At(d, r, run, n - 1), run[n - 1])
  }

  // --- when a record becomes the target's, and when it stops being so ---

  /** The statement makes `s` the target's: it inserts `s` for the target, or hands the target the servers of the owner
      of `s`. */
  predicate Gives(r: Registry, step: Step, target: string, s: string) {
    step.Other? && Attempt(r, step.stmt).Ok?
    && match step.stmt
       case Insert(srv) => srv.id == s && srv.ownerID == target
       case Reassign(from, to) => to == target && from != target && s in Owned(r.servers, from)
       case _ => false
  }

  /** The statement takes `s` away from the target: it deletes `s`, hands the target's servers to someone else, or erases
      the target. */
  predicate Takes(r: Registry, step: Step, target: string, s: string) {
    step.Other? && Attempt(r, step.stmt).Ok?
    && match step.stmt
       case Drop(id) => id == s
       case Reassign(from, to) => from == target && to != target
       case EraseUser(id) => id == target
       case _ => false
  }

  lemma OwnershipChanges(r: Registry, step: Step, target: string, s: string)
    requires step.Other?
    ensures s in Owned(Execute(r, step.stmt).servers, target)
            <==> Gives(r, step, target, s) || (s in Owned(r.servers, target) && !Takes(r, step, target, s))
  {
  }

  /** At step `i`, after step `m`, the record became the target's, and by step `n` nothing had taken it away. */
  predicate GivenForGood(d: Deletion, r: Registry, run: seq<Step>, m: nat, n: nat, s: string, i: nat)
    requires n <= |run|
  {
    && m <= i < n && Gives(At(d, r, run, i).reg, run[i], d.target, s)
    && forall j: nat | i < j < n :: !Takes(At(d, r, run, j).reg, run[j], d.target, s)
  }

  ghost predicate Latecomer(d: Deletion, r: Registry, run: seq<Step>, m: nat, n: nat, s: string)
    requires n <= |run|
  {
    exists i: nat :: GivenForGood(d, r, run, m, n, s, i)
  }

  /** One more step leaves an earlier gift standing exactly when it takes nothing away. */
  lemma GiftOutlives(d: Deletion, r: Registry, run: seq<Step>, m: nat, n: nat, s: string, i: nat)
    requires i < n < |run|
    ensures GivenForGood(d, r, run, m, n + 1, s, i)
            <==> GivenForGood(d, r, run, m, n, s, i) && !Takes(At(d, r, run, n).reg, run[n], d.target, s)
  {
    forall j: nat | j <= n
      ensures i < j < n + 1 && Takes(At(d, r, run, j).reg, run[j], d.target, s)
              <==> (i < j < n && Takes(At(d, r, run, j).reg, run[j], d.target, s))
                   || (j == n && Takes(At(d, r, run, j).reg, run[n], d.target, s))
    {
    }
  }

  lemma LatecomerWas(d: Deletion, r: Registry, run: seq<Step>, m: nat, n: nat, s: string)
    requires m <= n < |run| && Latecomer(d, r, run, m, n + 1, s)
    ensures Gives(At(d, r, run, n).reg, run[n], d.target, s)
            || (Latecomer(d, r, run, m, n, s) && !Takes(At(d, r, run, n).reg, run[n], d.target, s))
  {
    var i: nat :| GivenForGood(d, r, run, m, n + 1, s, i);
    if i < n { GiftOutlives(d, r, run, m, n, s, i); }
  }

  lemma LatecomerStays(d: Deletion, r: Registry, run: seq<Step>, m: nat, n: nat, s: string)
    requires m <= n < |run|
    requires Latecomer(d, r, run, m, n, s) && !Takes(At(d, r, run, n).reg, run[n], d.target, s)
    ensures Latecomer(d, r, run, m, n + 1, s)
  {
    var i: nat :| GivenForGood(d, r, run, m, n, s, i);
    GiftOutlives(d, r, run, m, n, s, i);
  }

  lemma LatecomerNext(d: Deletion, r: Registry, run: seq<Step>, m: nat, n: nat, s: string)
    requires m <= n < |run|
    ensures Latecomer(d, r, run, m, n + 1, s)
            <==> Gives(At(d, r, run, n).reg, run[n], d.target, s)
                 || (Latecomer(d, r, run, m, n, s) && !Takes(At(d, r, run, n).reg, run[n], d.target, s))
  {
    if Latecomer(d, r, run, m, n + 1, s) {
      LatecomerWas(d, r, run, m, n, s);
    }
    if Gives(At(d, r, run, n).reg, run[n], d.target, s) {
      assert GivenForGood(d, r, run, m, n + 1, s, n);
    } else if Latecomer(d, r, run, m, n, s) && !Takes(At(d, r, run, n).reg, run[n], d.target, s) {
      LatecomerStays(d, r, run, m, n, s);
    }
  }

  // --- from the count or the reassignment to the final statement ---

  /** The moment from which the final statement has been due. */
  function Cleared(d: Deletion, r: Registry, run: seq<Step>, n: nat): (m: nat)
    requires n <= |run|
    ensures m <= n
  {
    if n == 0 || At(d, r, run, n - 1).phase != Erasing then n else Cleared(d, r, run, n - 1)
  }

  /** At that moment the target owned nothing. */
  lemma ClearedOwnsNothing(d: Deletion, s: State)
    requires d.actor != d.target && s.phase != Erasing && Advance(d, s).phase == Erasing
    ensures Owned(Advance(d, s).reg.servers, d.target) == {}
  {
  }

  /** While the final statement is due, the target owns exactly the latecomers. */
  lemma {:induction false} OwnsExactlyLatecomers(d: Deletion, r: Registry, run: seq<Step>, n: nat, s: string)
    requires d.actor != d.target && n <= |run| && At(d, r, run, n).phase == Erasing
    ensures s in Owned(At(d, r, run, n).reg.servers, d.target) <==> Latecomer(d, r, run, Cleared(d, r, run, n), n, s)
  {
    var before := At(d, r, run, n - 1);
    if before.phase != Erasing {
      ClearedOwnsNothing(d, before);
    } else {
      OwnsExactlyLatecomers(d, r, run, n - 1, s);
      OwnershipChanges(before.reg, run[n - 1], d.target, s);
      LatecomerNext(d, r, run, Cleared(d, r, run, n), n - 1, s);
    }
  }

  /** The final DELETE drops a record, by the cascade, exactly when some statement that ran after the count or the
      reassignment inserted it for the target or handed it to the target, and no later statement took it away again. */
  lemma CascadeDropsExactlyLatecomers(d: Deletion, r: Registry, run: seq<Step>, n: nat, s: string)
    requires d.actor != d.target && n <= |run| && At(d, r, run, n).phase == Erasing
    requires s in At(d, r, run, n).reg.servers && d.target in At(d, r, run, n).reg.users
    ensures var after := Next(d, At(d, r, run, n), Own);
            && after.phase == Removed
            && (s !in after.reg.servers <==> Latecomer(d, r, run, Cleared(d, r, run, n), n, s))
            && (s in after.reg.servers ==> after.reg.servers[s] == At(d, r, run, n).reg.servers[s])
  {
    OwnsExactlyLatecomers(d, r, run, n, s);
  }

  /** Something a caller could see coming: a statement that inserts for the target or reassigns to the target. */
  predicate AddsToTarget(step: Step, target: string) {
    step.Other?
    && match step.stmt
       case Insert(srv) => srv.ownerID == target
       case Reassign(from, to) => to == target && from != target
       case _ => false
  }

  /** These are exactly the statements that can give the target a record at all. */
  lemma AddsExactlyIfItCanGive(step: Step, target: string)
    ensures AddsToTarget(step, target) <==> exists r: Registry, s: string :: Gives(r, step, target, s)
  {
    if AddsToTarget(step, target) {
      var users := map[target := User(target, "alex", "", false)];
      match step.stmt
      case Insert(srv) =>
        assert Gives(Registry(users, map[]), step, target, srv.id);
      case Reassign(from, _) =>
        var row := Server("s", "world", from, VANILLA, LATEST, "", "", 25565, "2G", 0.0, Creating, "", "");
        assert "s" in Owned(map["s" := row], from);
        assert Gives(Registry(users, map["s" := row]), step, target, "s");
    }
  }

  /** If no such statement runs between the count or the reassignment and the DELETE, the DELETE drops nothing. */
  lemma NothingDroppedWithoutNewcomers(d: Deletion, r: Registry, run: seq<Step>, n: nat)
    requires d.actor != d.target && n <= |run| && At(d, r, run, n).phase == Erasing
    requires forall i: nat | Cleared(d, r, run, n) <= i < n :: !AddsToTarget(run[i], d.target)
    ensures Next(d, At(d, r, run, n), Own).reg.servers == At(d, r, run, n).reg.servers
  {
    var before := At(d, r, run, n).reg;
    forall s | s in before.servers ensures s !in Owned(before.servers, d.target) {
      OwnsExactlyLatecomers(d, r, run, n, s);
    }
    assert Owned(before.servers, d.target) == {};
    assert before.servers - {} == before.servers;
  }

  /** What the reassignment is for. A container that has its record when the DELETE runs is left without one exactly when
      that record is a latecomer. */
  lemma CascadeStrandsExactlyLatecomers(
    d: Deletion, r: Registry, run: seq<Step>, n: nat, h: Host, s: string, c: string)
    requires d.actor != d.target && n <= |run| && At(d, r, run, n).phase == Erasing
    requires d.target in At(d, r, run, n).reg.users
    requires c in h.containers && Invariant.Backs(At(d, r, run, n).reg.servers, h, s, c)
    ensures !Invariant.Backed(Next(d, At(d, r, run, n), Own).reg.servers, h, c)
            <==> Latecomer(d, r, run, Cleared(d, r, run, n), n, s)
  {
    var before, after := At(d, r, run, n).reg.servers, Next(d, At(d, r, run, n), Own).reg.servers;
    CascadeDropsExactlyLatecomers(d, r, run, n, s);
    if s in after {
      assert Invariant.Backs(after, h, s, c);
    } else if Invariant.Backed(after, h, c) {
      var t :| Invariant.Backs(after, h, t, c);
      NamesAreInjective(s, t);
    }
  }

  // --- served alone, and not ---

  /** Left alone, the three statements do what the deletion promises. */
  lemma SoloDeletion(w: Lifecycle.World, d: Deletion)
    requires Lifecycle.RequireAdmin(w.reg, d.actor) == None
    requires d.target in w.reg.users && d.target != d.actor && !Lifecycle.LastAdmin(w.reg, d.target)
    ensures var end := Next(d, Next(d, Next(d, State(w.reg, Counting), Own), Own), Own);
            var (w', code) := Lifecycle.RemoveUser(w, d.actor, d.target, d.reassign);
            end.reg == w'.reg && (end.phase == Removed <==> code == Lifecycle.NO_CONTENT)
  {
    ReassignmentShieldsRows(w.reg, d.target, d.actor);
    if Owned(w.reg.servers, d.target) == {} {
      assert forall s | s in w.reg.servers :: s !in Owned(w.reg.servers, d.target);
      assert ReassignServers(w.reg, d.target, d.actor).value.servers == w.reg.servers;
    } else {
      ReassignKeepsOwner(w.reg, d.target, d.actor);
    }
  }

  lemma ReassignKeepsOwner(r: Registry, from: string, to: string)
    requires from != to && to in r.users
    ensures Owned(ReassignServers(r, from, to).value.servers, from) == {}
  {
  }

  /** A concrete loss: the count finds nothing, then the target's own create inserts its record and is told that it has
      its container, and then the account goes and takes the record along. The container stays behind. */
  lemma CreateLosesItsRecord() returns (d: Deletion, r: Registry, row: Server, run: seq<Step>, h: Host)
    ensures row.ownerID == d.target && row.status == Creating && row.containerID == ""
    ensures run == [Own, Other(Insert(row)), Other(Rewrite(row.(containerID := "c", status := Stopped))), Own]
    ensures Consistent(r) && d.actor in Admins(r.users) && d.target in r.users && d.target != d.actor
    ensures var s := At(d, r, run, 3).reg.servers; row.id in s && s[row.id].containerID == "c" && Invariant.HostSound(s, h)
    ensures At(d, r, run, 4).phase == Removed && At(d, r, run, 4).reg.servers == map[]
    ensures "c" in h.containers && !Invariant.Backed(At(d, r, run, 4).reg.servers, h, "c")
  {
    var boss, bob := User("a", "alex", "", true), User("b", "bobby", "", false);
    row := Server("s", "world", "b", VANILLA, LATEST, "", "", 25565, "2G", 0.0, Creating, "", "");
    var made := row.(containerID := "c", status := Stopped);
    d, r := Deletion("a", "b", true), Registry(map["a" := boss, "b" := bob], map[]);
    run := [Own, Other(Insert(row)), Other(Rewrite(made)), Own];
    h := Host(map["c" := Container(ContainerName("s"), 25565, VolumeName("s"), false)], map[VolumeName("s") := []], {"c"});
    assert "a" in Admins(r.users);
    assert At(d, r, run, 1) == State(r, Erasing);
    assert At(d, r, run, 2) == State(r.(servers := map["s" := row]), Erasing);
    assert At(d, r, run, 3) == State(r.(servers := map["s" := made]), Erasing);
    assert Owned(map["s" := made], "b") == {"s"};
    assert Invariant.Backs(map["s" := made], h, "s", "c");
    assert map["s" := made] - {"s"} == map[];
  }
}
