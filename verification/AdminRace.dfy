/** Account requests of `internal/api/admin.go` and `internal/api/auth.go` interleaved statement by statement:
    every request keeps the snapshot it read, and other requests run between any two of its statements. */
module AdminRace {
  import opened Text
  import opened Models
  import opened Registries

  /** A request, named after the statement it is about to run. */
  datatype Proc =
    | RegisterRead(id: string, username: string, hash: string)    // does any user exist?
    | SeedRead(id: string, username: string, hash: string)        // the same question, asked at startup
    | InsertRow(user: User)
    | RoleLookup(actor: string, target: string, grant: bool)
    | Grant(target: string)
    | DemoteCount(target: string)                                 // target was an admin when looked up
    | Revoke(target: string)
    | RemoveLookup(actor: string, target: string)
    | RemoveCount(target: string)                                 // target was an admin when looked up
    | Erase(target: string)

  datatype State = State(users: map<string, User>, procs: map<nat, Proc>)

  datatype Step = Begin(pid: nat, proc: Proc) | Advance(pid: nat) | Abandon(pid: nat)

  /** Registration and seeding are open to all; everything else needs an admin at the moment of authentication. */
  predicate MayBegin(users: map<string, User>, p: Proc) {
    p.RegisterRead? || p.SeedRead?
    || ((p.InsertRow? || p.RoleLookup? || p.RemoveLookup?) && Admins(users) != {})
  }

  function Finish(s: State, pid: nat): State {
    s.(procs := s.procs - {pid})
  }

  function Turn(s: State, pid: nat, p: Proc): State {
    s.(procs := s.procs[pid := p])
  }

  function SetAdmin(users: map<string, User>, id: string, isAdmin: bool): map<string, User> {
    if id in users then users[id := users[id].(isAdmin := isAdmin)] else users
  }

  function AdvanceProc(s: State, pid: nat): State
    requires pid in s.procs
  {
    match s.procs[pid]
    case RegisterRead(id, username, hash) => Turn(s, pid, InsertRow(User(id, username, hash, s.users == map[])))
    case SeedRead(id, username, hash) =>
      if s.users != map[] then Finish(s, pid) else Turn(s, pid, InsertRow(User(id, username, hash, true)))
    case InsertRow(u) =>
      (match InsertUser(Registry(s.users, map[]), u)
       case Err(_) => Finish(s, pid)
       case Ok(r) => Finish(s.(users := r.users), pid))
    case RoleLookup(actor, target, grant) =>
      if target !in s.users || grant == s.users[target].isAdmin then Finish(s, pid)
      else if grant then Turn(s, pid, Grant(target))
      else if target == actor then Finish(s, pid)
      else Turn(s, pid, DemoteCount(target))
    case Grant(target) => Finish(s.(users := SetAdmin(s.users, target, true)), pid)
    case DemoteCount(target) => if |Admins(s.users)| <= 1 then Finish(s, pid) else Turn(s, pid, Revoke(target))
    case Revoke(target) => Finish(s.(users := SetAdmin(s.users, target, false)), pid)
    case RemoveLookup(actor, target) =>
      if target !in s.users || target == actor then Finish(s, pid)
      else Turn(s, pid, if s.users[target].isAdmin then RemoveCount(target) else Erase(target))
    case RemoveCount(target) => if |Admins(s.users)| <= 1 then Finish(s, pid) else Turn(s, pid, Erase(target))
    case Erase(target) => Finish(s.(users := s.users - {target}), pid)
  }

  /** A step that does not apply changes nothing. */
  function Next(s: State, step: Step): State {
    match step
    case Begin(pid, p) => if pid !in s.procs && MayBegin(s.users, p) then Turn(s, pid, p) else s
    case Advance(pid) => if pid in s.procs then AdvanceProc(s, pid) else s
    case Abandon(pid) => Finish(s, pid)
  }

  /** Between its user lookup and its final write, a demotion or deletion. */
  predicate Narrowing(p: Proc) {
    p.DemoteCount? || p.Revoke? || p.RemoveCount? || p.Erase?
  }

  /** At most one demotion or deletion is between its lookup and its final write. */
  ghost predicate Exclusive(s: State) {
    forall p, q | p in s.procs && q in s.procs && Narrowing(s.procs[p]) && Narrowing(s.procs[q]) :: p == q
  }

  ghost predicate OtherAdmin(users: map<string, User>, target: string) {
    exists a :: a in Admins(users) && a != target
  }

  ghost predicate ProcSound(users: map<string, User>, p: Proc) {
    match p
    case InsertRow(u) => users == map[] ==> u.isAdmin
    case Revoke(target) => OtherAdmin(users, target)
    case Erase(target) => OtherAdmin(users, target)
    case _ => true
  }

  ghost predicate Inv(s: State) {
    && (s.users != map[] ==> Admins(s.users) != {})
    && forall p | p in s.procs :: ProcSound(s.users, s.procs[p])
  }

  /** A request that only reads moves on, provided what it read supports its next statement. */
  lemma TurnKeepsInv(s: State, pid: nat, p: Proc)
    requires Inv(s) && ProcSound(s.users, p)
    ensures Inv(Turn(s, pid, p))
  {
  }

  /** Adding admins or accounts harms no request in flight. */
  lemma GrowthKeepsInv(s: State, pid: nat, users': map<string, User>)
    requires Inv(s) && users' != map[]
    requires Admins(s.users) <= Admins(users') && Admins(users') != {}
    ensures Inv(Finish(s.(users := users'), pid))
  {
    forall p | p in s.procs ensures ProcSound(users', s.procs[p]) {
      assert ProcSound(s.users, s.procs[p]);
    }
  }

  lemma TwoAdminsLeaveAnother(users: map<string, User>, target: string)
    requires |Admins(users)| > 1
    ensures OtherAdmin(users, target)
  {
    var a :| a in Admins(users);
    assert |Admins(users) - {a}| == |Admins(users)| - 1;
    var b :| b in Admins(users) - {a};
  }

  /** A lone demotion or deletion ends with another admin still in place. */
  lemma NarrowingKeepsInv(s: State, pid: nat, users': map<string, User>)
    requires Inv(s) && Exclusive(s) && pid in s.procs
    requires s.procs[pid].Revoke? || s.procs[pid].Erase?
    requires Admins(users') == Admins(s.users) - {s.procs[pid].target}
    ensures Inv(Finish(s.(users := users'), pid))
  {
    assert ProcSound(s.users, s.procs[pid]);
    var a :| a in Admins(s.users) && a != s.procs[pid].target;
    assert a in Admins(users');
    forall p | p in s.procs && p != pid ensures ProcSound(users', s.procs[p]) {
      assert ProcSound(s.users, s.procs[p]);
    }
  }

  lemma InsertKeepsInv(s: State, pid: nat, u: User)
    requires Inv(s) && pid in s.procs && s.procs[pid] == InsertRow(u)
    requires InsertUser(Registry(s.users, map[]), u).Ok?
    ensures Inv(Finish(s.(users := s.users[u.id := u]), pid))
  {
    var users' := s.users[u.id := u];
    assert ProcSound(s.users, s.procs[pid]);
    assert Admins(users') == Admins(s.users) + if u.isAdmin then {u.id} else {};
    GrowthKeepsInv(s, pid, users');
  }

  lemma GrantKeepsInv(s: State, pid: nat, target: string)
    requires Inv(s)
    ensures Inv(Finish(s.(users := SetAdmin(s.users, target, true)), pid))
  {
    if target in s.users {
      var users' := SetAdmin(s.users, target, true);
      assert Admins(users') == Admins(s.users) + {target};
      GrowthKeepsInv(s, pid, users');
    }
  }

  lemma LookupKeepsInv(s: State, pid: nat, target: string)
    requires Inv(s) && target in s.users
    ensures Inv(Turn(s, pid, if s.users[target].isAdmin then RemoveCount(target) else Erase(target)))
  {
    if !s.users[target].isAdmin {
      var a :| a in Admins(s.users);
      assert a != target;
      TurnKeepsInv(s, pid, Erase(target));
    } else {
      TurnKeepsInv(s, pid, RemoveCount(target));
    }
  }

  lemma CountKeepsInv(s: State, pid: nat, target: string)
    requires Inv(s) && |Admins(s.users)| > 1
    ensures Inv(Turn(s, pid, Revoke(target))) && Inv(Turn(s, pid, Erase(target)))
  {
    TwoAdminsLeaveAnother(s.users, target);
    TurnKeepsInv(s, pid, Revoke(target));
    TurnKeepsInv(s, pid, Erase(target));
  }

  lemma LastStatementKeepsInv(s: State, pid: nat, target: string)
    requires Inv(s) && Exclusive(s) && pid in s.procs
    requires s.procs[pid] == Revoke(target) || s.procs[pid] == Erase(target)
    ensures Inv(AdvanceProc(s, pid))
  {
    if s.procs[pid].Revoke? {
      assert Admins(SetAdmin(s.users, target, false)) == Admins(s.users) - {target};
      NarrowingKeepsInv(s, pid, SetAdmin(s.users, target, false));
    } else {
      assert Admins(s.users - {target}) == Admins(s.users) - {target};
      NarrowingKeepsInv(s, pid, s.users - {target});
    }
  }

  lemma AdvanceKeepsInv(s: State, pid: nat)
    requires Inv(s) && Exclusive(s) && pid in s.procs
    ensures Inv(AdvanceProc(s, pid))
  {
    match s.procs[pid] {
      case InsertRow(u) =>
        if InsertUser(Registry(s.users, map[]), u).Ok? { InsertKeepsInv(s, pid, u); }
      case Grant(target) => GrantKeepsInv(s, pid, target);
      case DemoteCount(target) =>
        if |Admins(s.users)| > 1 { CountKeepsInv(s, pid, target); }
      case RemoveCount(target) =>
        if |Admins(s.users)| > 1 { CountKeepsInv(s, pid, target); }
      case RemoveLookup(actor, target) =>
        if target in s.users && target != actor { LookupKeepsInv(s, pid, target); }
      case Revoke(target) => LastStatementKeepsInv(s, pid, target);
      case Erase(target) => LastStatementKeepsInv(s, pid, target);
      case RegisterRead(id, username, hash) =>
        TurnKeepsInv(s, pid, InsertRow(User(id, username, hash, s.users == map[])));
      case SeedRead(id, username, hash) => TurnKeepsInv(s, pid, InsertRow(User(id, username, hash, true)));
      case RoleLookup(_, target, _) =>
        TurnKeepsInv(s, pid, Grant(target));
        TurnKeepsInv(s, pid, DemoteCount(target));
    }
  }

  lemma NextKeepsInv(s: State, step: Step)
    requires Inv(s) && Exclusive(s)
    ensures Inv(Next(s, step))
  {
    if step.Advance? && step.pid in s.procs {
      AdvanceKeepsInv(s, step.pid);
    }
  }

  function After(s: State, run: seq<Step>): State
    decreases |run|
  {
    if run == [] then s else After(Next(s, run[0]), run[1..])
  }

  ghost predicate ExclusiveRun(s: State, run: seq<Step>)
    decreases |run|
  {
    Exclusive(s) && (run == [] || ExclusiveRun(Next(s, run[0]), run[1..]))
  }

  lemma {:induction false} RunKeepsInv(s: State, run: seq<Step>)
    requires Inv(s) && ExclusiveRun(s, run)
    ensures Inv(After(s, run))
    decreases |run|
  {
    if run != [] {
      NextKeepsInv(s, run[0]);
      RunKeepsInv(Next(s, run[0]), run[1..]);
    }
  }

  ghost predicate HasAdmin(s: State) {
    s.users != map[] ==> Admins(s.users) != {}
  }

  const FRESH_INSTALL := State(map[], map[])

  /** Registrations, account creations and promotions may interleave at will. As long as demotions and deletions do
      not overlap one another, an installation that has a user has an admin. */
  lemma AlwaysAnAdmin(run: seq<Step>)
    requires ExclusiveRun(FRESH_INSTALL, run)
    ensures HasAdmin(After(FRESH_INSTALL, run))
  {
    RunKeepsInv(FRESH_INSTALL, run);
  }

  lemma TwoSteps(s: State, first: Step, second: Step, rest: seq<Step>)
    ensures After(s, [first, second] + rest) == After(Next(Next(s, first), second), rest)
  {
    var run := [first, second] + rest;
    assert run[1..][0] == second && run[1..][1..] == rest;
  }

  function Both(users: map<string, User>, p: Proc, q: Proc): State {
    State(users, map[0 := p, 1 := q])
  }

  /** Two demotions that look their targets up before either counts, then count before either writes. */
  lemma LookTogether(users: map<string, User>, p: Proc, q: Proc, rest: seq<Step>)
    requires p.RoleLookup? && q.RoleLookup? && !p.grant && !q.grant && p.target != p.actor && q.target != q.actor
    requires p.target in Admins(users) && q.target in Admins(users)
    ensures After(Both(users, p, q), [Advance(0), Advance(1)] + rest)
            == After(Both(users, DemoteCount(p.target), DemoteCount(q.target)), rest)
  {
    TwoSteps(Both(users, p, q), Advance(0), Advance(1), rest);
    assert Next(Both(users, p, q), Advance(0)) == Both(users, DemoteCount(p.target), q);
    assert Next(Both(users, DemoteCount(p.target), q), Advance(1))
           == Both(users, DemoteCount(p.target), DemoteCount(q.target));
  }

  lemma CountTogether(users: map<string, User>, a: string, b: string, rest: seq<Step>)
    requires |Admins(users)| > 1
    ensures After(Both(users, DemoteCount(a), DemoteCount(b)), [Advance(0), Advance(1)] + rest)
            == After(Both(users, Revoke(a), Revoke(b)), rest)
  {
    TwoSteps(Both(users, DemoteCount(a), DemoteCount(b)), Advance(0), Advance(1), rest);
    assert Next(Both(users, DemoteCount(a), DemoteCount(b)), Advance(0)) == Both(users, Revoke(a), DemoteCount(b));
    assert Next(Both(users, Revoke(a), DemoteCount(b)), Advance(1)) == Both(users, Revoke(a), Revoke(b));
  }

  lemma WriteTogether(users: map<string, User>, a: string, b: string)
    requires a != b
    ensures Admins(After(Both(users, Revoke(a), Revoke(b)), [Advance(0), Advance(1)]).users) == Admins(users) - {a, b}
    ensures After(Both(users, Revoke(a), Revoke(b)), [Advance(0), Advance(1)]).users.Keys == users.Keys
  {
    TwoSteps(Both(users, Revoke(a), Revoke(b)), Advance(0), Advance(1), []);
    assert [Advance(0), Advance(1)] == [Advance(0), Advance(1)] + [];
  }

  // --- the proviso is exact ---

  /** At most `k` demotions or deletions are between their lookups and their final writes. */
  ghost predicate Overlap(s: State, k: nat) {
    |Narrow(s)| <= k
  }

  function Narrow(s: State): set<nat> {
    set p | p in s.procs && Narrowing(s.procs[p])
  }

  ghost predicate OverlapRun(s: State, run: seq<Step>, k: nat)
    decreases |run|
  {
    Overlap(s, k) && (run == [] || OverlapRun(Next(s, run[0]), run[1..], k))
  }

  /** A single one is an exclusive one. */
  lemma {:induction false} SingleIsExclusive(s: State, run: seq<Step>)
    requires OverlapRun(s, run, 1)
    ensures ExclusiveRun(s, run)
    decreases |run|
  {
    forall p, q | p in Narrow(s) && q in Narrow(s) ensures p == q {
      SubsetSize({p, q}, Narrow(s));
    }
    assert forall p | p in s.procs && Narrowing(s.procs[p]) :: p in Narrow(s);
    if run != [] {
      SingleIsExclusive(Next(s, run[0]), run[1..]);
    }
  }

  /** Only the two request slots 0 and 1 are used, so no more than two requests ever overlap. */
  ghost predicate TwoSlots(run: seq<Step>) {
    forall i | 0 <= i < |run| :: run[i].pid < 2
  }

  lemma {:induction false} TwoSlotsOverlapAtMostTwice(s: State, run: seq<Step>)
    requires TwoSlots(run) && s.procs.Keys <= {0, 1}
    ensures OverlapRun(s, run, 2)
    decreases |run|
  {
    SubsetSize(Narrow(s), {0, 1});
    if run != [] {
      assert run[0].pid in {0, 1};
      TwoSlotsOverlapAtMostTwice(Next(s, run[0]), run[1..]);
    }
  }

  /** Two admins and two demotions of each other that both count before either writes: none is left. */
  lemma OverlapLosesBothAdmins(users: map<string, User>, a: string, b: string) returns (run: seq<Step>)
    requires a != b && Admins(users) == {a, b}
    ensures TwoSlots(run)
    ensures After(State(users, map[]), run).users.Keys == users.Keys && Admins(After(State(users, map[]), run).users) == {}
  {
    var s := State(users, map[]);
    var p, q := RoleLookup(a, b, false), RoleLookup(b, a, false);
    var step := [Advance(0), Advance(1)];
    run := [Begin(0, p), Begin(1, q)] + (step + (step + step));
    TwoSteps(s, Begin(0, p), Begin(1, q), step + (step + step));
    LookTogether(users, p, q, step + step);
    CountTogether(users, b, a, step);
    WriteTogether(users, b, a);
  }

  lemma {:induction false} AfterConcat(s: State, first: seq<Step>, rest: seq<Step>)
    ensures After(s, first + rest) == After(After(s, first), rest)
    decreases |first|
  {
    if first == [] {
      assert first + rest == rest;
    } else {
      assert (first + rest)[0] == first[0] && (first + rest)[1..] == first[1..] + rest;
      AfterConcat(Next(s, first[0]), first[1..], rest);
    }
  }

  /** A demotion that has the place to itself. */
  lemma DemoteAlone(users: map<string, User>, a: string, c: string) returns (run: seq<Step>)
    requires a != c && a in Admins(users) && c in Admins(users)
    ensures TwoSlots(run)
    ensures After(State(users, map[]), run) == State(SetAdmin(users, c, false), map[])
    ensures Admins(SetAdmin(users, c, false)) == Admins(users) - {c}
  {
    SubsetSize({a, c}, Admins(users));
    var look, count, write := RoleLookup(a, c, false), DemoteCount(c), Revoke(c);
    run := [Begin(0, look), Advance(0)] + ([Advance(0), Advance(0)] + []);
    var s := State(users, map[]);
    TwoSteps(s, Begin(0, look), Advance(0), [Advance(0), Advance(0)] + []);
    assert Next(Next(s, Begin(0, look)), Advance(0)) == State(users, map[0 := count]);
    TwoSteps(State(users, map[0 := count]), Advance(0), Advance(0), []);
    assert Next(State(users, map[0 := count]), Advance(0)) == State(users, map[0 := write]);
    assert Next(State(users, map[0 := write]), Advance(0)) == State(SetAdmin(users, c, false), map[]);
  }

  /** From every resting state with two admins or more, requests that never overlap more than twice can take them all: all
      but two one at a time, and the last two together. */
  lemma {:induction false} TwoOverlappingLoseEveryAdmin(users: map<string, User>) returns (run: seq<Step>)
    requires |Admins(users)| >= 2
    ensures TwoSlots(run) && OverlapRun(State(users, map[]), run, 2)
    ensures After(State(users, map[]), run).users.Keys == users.Keys && Admins(After(State(users, map[]), run).users) == {}
    decreases |Admins(users)|
  {
    var a :| a in Admins(users);
    assert |Admins(users) - {a}| == |Admins(users)| - 1;
    var b :| b in Admins(users) - {a};
    if Admins(users) == {a, b} {
      run := OverlapLosesBothAdmins(users, a, b);
    } else {
      assert Admins(users) == {a, b} + (Admins(users) - {a, b});
      var c :| c in Admins(users) - {a, b};
      var first := DemoteAlone(users, a, c);
      SubsetSize({a, b}, Admins(users) - {c});
      var rest := TwoOverlappingLoseEveryAdmin(SetAdmin(users, c, false));
      AfterConcat(State(users, map[]), first, rest);
      run := first + rest;
    }
    TwoSlotsOverlapAtMostTwice(State(users, map[]), run);
  }

  /** A first registration, then an admin account made by that admin. */
  lemma TwoAdminsComeAbout() returns (run: seq<Step>)
    ensures TwoSlots(run)
    ensures After(FRESH_INSTALL, run)
            == State(map["a" := User("a", "alex", "", true), "b" := User("b", "bobby", "", true)], map[])
  {
    var a, b := User("a", "alex", "", true), User("b", "bobby", "", true);
    var register, insert := [Begin(0, RegisterRead("a", "alex", "")), Advance(0)], [Advance(0), Begin(1, InsertRow(b))];
    TwoSteps(FRESH_INSTALL, register[0], register[1], insert + ([Advance(1), Advance(1)] + []));
    var mid := State(map[], map[0 := InsertRow(a)]);
    assert Next(Next(FRESH_INSTALL, register[0]), register[1]) == mid;
    TwoSteps(mid, insert[0], insert[1], [Advance(1), Advance(1)] + []);
    var one := State(map["a" := a], map[1 := InsertRow(b)]);
    assert "a" in Admins(map["a" := a]);
    assert Next(mid, insert[0]) == State(map["a" := a], map[]);
    assert Next(Next(mid, insert[0]), insert[1]) == one;
    TwoSteps(one, Advance(1), Advance(1), []);
    assert Next(one, Advance(1)) == State(map["a" := a, "b" := b], map[]);
    run := register + (insert + ([Advance(1), Advance(1)] + []));
  }

  /** A whole history that ends so: an installation with two accounts and no admin. */
  lemma OverlapCanLoseEveryAdmin() returns (run: seq<Step>)
    ensures OverlapRun(FRESH_INSTALL, run, 2)
    ensures var s := After(FRESH_INSTALL, run); s.users != map[] && Admins(s.users) == {}
  {
    var setUp := TwoAdminsComeAbout();
    var users := After(FRESH_INSTALL, setUp).users;
    assert Admins(users) == {"a", "b"};
    var race := TwoOverlappingLoseEveryAdmin(users);
    AfterConcat(FRESH_INSTALL, setUp, race);
    run := setUp + race;
    TwoSlotsOverlapAtMostTwice(FRESH_INSTALL, run);
    assert "a" in After(FRESH_INSTALL, run).users.Keys;
  }

  /** However an installation is used, as long as at most `k` demotions or deletions overlap, it has an admin. */
  ghost predicate SafeUpTo(k: nat) {
    forall run: seq<Step> :: OverlapRun(FRESH_INSTALL, run, k) ==> HasAdmin(After(FRESH_INSTALL, run))
  }

  lemma {:induction false} FewerOverlap(s: State, run: seq<Step>, j: nat, k: nat)
    requires j <= k && OverlapRun(s, run, j)
    ensures OverlapRun(s, run, k)
    decreases |run|
  {
    if run != [] {
      FewerOverlap(Next(s, run[0]), run[1..], j, k);
    }
  }

  /** The last-admin check does its work for one demotion or deletion at a time, and for no more. */
  lemma AdminSurvivesExactlyWithoutOverlap(k: nat)
    ensures SafeUpTo(k) <==> k <= 1
  {
    if k <= 1 {
      forall run | OverlapRun(FRESH_INSTALL, run, k) ensures HasAdmin(After(FRESH_INSTALL, run)) {
        FewerOverlap(FRESH_INSTALL, run, k, 1);
        SingleIsExclusive(FRESH_INSTALL, run);
        AlwaysAnAdmin(run);
      }
    } else {
      var run := OverlapCanLoseEveryAdmin();
      FewerOverlap(FRESH_INSTALL, run, 2, k);
      assert !HasAdmin(After(FRESH_INSTALL, run));
    }
  }
}
