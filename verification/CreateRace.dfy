/** Concurrent creates at the granularity of SQL statements: cap check, port read, insert. The allocator's mutex is
    released before the insert, so other requests, and deletions, run between any two statements. */
module CreateRace {
  import opened Text
  import opened Models
  import opened Registries
  import opened Ports

  /** Where a create request stands. `since` counts the inserts that had happened when it read the ports. */
  datatype Slot = Idle | Passed | Chosen(port: int, since: nat)

  /** A successful insert, and a refused one with the stretch of inserts it could have lost to. */
  datatype Win = Win(slot: nat, port: int)
  datatype Loss = Loss(slot: nat, port: int, since: nat, until: nat)

  datatype Pool = Pool(maxServers: int, start: int, end: int)

  /** `rows` maps a server ID to its port; the slots are the requests that may be in flight at once. */
  datatype State = State(rows: map<nat, int>, slots: seq<Slot>, wins: seq<Win>, losses: seq<Loss>)

  datatype Step =
    | Check(slot: nat)                       // count the rows, refuse at the cap
    | Read(slot: nat, busy: set<int>)        // read the claimed ports and pick the lowest free one
    | Insert(slot: nat, id: nat)             // insert under a fresh ID; UNIQUE decides
    | Quit(slot: nat)                        // any other failure, or the client leaving
    | Delete(id: nat)

  function Claimed(rows: map<nat, int>): set<int> {
    set id | id in rows :: rows[id]
  }

  function SetSlot(s: State, k: nat, slot: Slot): State
    requires k < |s.slots|
  {
    s.(slots := s.slots[k := slot])
  }

  /** A step that does not apply changes nothing. */
  function Next(pool: Pool, s: State, step: Step): State {
    match step
    case Check(k) =>
      if k < |s.slots| && s.slots[k].Idle? && |s.rows| < pool.maxServers then SetSlot(s, k, Passed) else s
    case Read(k, busy) =>
      if k < |s.slots| && s.slots[k].Passed? then
        match LowestFree(pool.start, pool.end, Claimed(s.rows), busy)
        case None => SetSlot(s, k, Idle)
        case Some(p) => SetSlot(s, k, Chosen(p, |s.wins|))
      else s
    case Insert(k, id) =>
      if k < |s.slots| && s.slots[k].Chosen? && id !in s.rows then
        var p := s.slots[k].port;
        var idle := SetSlot(s, k, Idle);
        if p in Claimed(s.rows) then
          idle.(losses := s.losses + [Loss(k, p, s.slots[k].since, |s.wins|)])
        else
          idle.(rows := s.rows[id := p], wins := s.wins + [Win(k, p)])
      else s
    case Quit(k) => if k < |s.slots| then SetSlot(s, k, Idle) else s
    case Delete(id) => s.(rows := s.rows - {id})
  }

  function After(pool: Pool, s: State, run: seq<Step>): State
    decreases |run|
  {
    if run == [] then s else After(pool, Next(pool, s, run[0]), run[1..])
  }

  lemma {:induction false} AfterConcat(pool: Pool, s: State, a: seq<Step>, b: seq<Step>)
    ensures After(pool, s, a + b) == After(pool, After(pool, s, a), b)
    decreases |a|
  {
    if a == [] {
      assert a + b == b;
    } else {
      assert (a + b)[0] == a[0] && (a + b)[1..] == a[1..] + b;
      AfterConcat(pool, Next(pool, s, a[0]), a[1..], b);
    }
  }

  /** Nobody in flight, no history. */
  predicate Quiet(s: State) {
    (forall k | 0 <= k < |s.slots| :: s.slots[k] == Idle) && s.wins == [] && s.losses == []
  }

  ghost predicate DistinctRows(rows: map<nat, int>) {
    forall a, b | a in rows && b in rows && rows[a] == rows[b] :: a == b
  }

  // --- every lost race has a winner ---

  /** Another request inserted `port` among the inserts `since .. until`. */
  ghost predicate BeatenBetween(s: State, slot: nat, port: int, since: nat, until: nat) {
    exists e: nat :: since <= e < until && e < |s.wins| && s.wins[e].port == port && s.wins[e].slot != slot
  }

  ghost predicate SlotSound(s: State, k: nat)
    requires k < |s.slots|
  {
    s.slots[k].Chosen? ==>
      && s.slots[k].since <= |s.wins|
      && (forall e: nat | s.slots[k].since <= e < |s.wins| :: s.wins[e].slot != k)
      && (s.slots[k].port in Claimed(s.rows) ==> BeatenBetween(s, k, s.slots[k].port, s.slots[k].since, |s.wins|))
  }

  ghost predicate LossSound(s: State, l: Loss) {
    l.since <= l.until <= |s.wins| && l.slot < |s.slots| && BeatenBetween(s, l.slot, l.port, l.since, l.until)
  }

  ghost predicate HistorySound(s: State) {
    && (forall k: nat | k < |s.slots| :: SlotSound(s, k))
    && (forall i | 0 <= i < |s.losses| :: LossSound(s, s.losses[i]))
    && DistinctRows(s.rows)
  }

  lemma MoreWinsKeepBeaten(s: State, w: Win, slot: nat, port: int, since: nat, until: nat)
    requires BeatenBetween(s, slot, port, since, until)
    ensures BeatenBetween(s.(wins := s.wins + [w]), slot, port, since, until)
  {
    var e: nat :| since <= e < until && e < |s.wins| && s.wins[e].port == port && s.wins[e].slot != slot;
    assert (s.wins + [w])[e] == s.wins[e];
  }

  /** What the other slots know survives a new win, unless the win is their own. */
  lemma WinKeepsSlots(s: State, s': State, w: Win, k: nat)
    requires HistorySound(s) && w.slot < |s.slots| && k < |s.slots| && k != w.slot
    requires s'.wins == s.wins + [w] && s'.slots == s.slots[w.slot := Idle]
    requires Claimed(s'.rows) == Claimed(s.rows) + {w.port}
    ensures SlotSound(s', k)
  {
    assert SlotSound(s, k);
    if s.slots[k].Chosen? && s.slots[k].port in Claimed(s'.rows) {
      if s.slots[k].port in Claimed(s.rows) {
        MoreWinsKeepBeaten(s, w, k, s.slots[k].port, s.slots[k].since, |s.wins|);
      }
      assert s'.wins[|s.wins|] == w;
    }
  }

  lemma WinKeepsHistory(pool: Pool, s: State, k: nat, id: nat)
    requires HistorySound(s) && k < |s.slots| && s.slots[k].Chosen? && id !in s.rows
    requires s.slots[k].port !in Claimed(s.rows)
    ensures HistorySound(Next(pool, s, Insert(k, id)))
  {
    var s' := Next(pool, s, Insert(k, id));
    var w := Win(k, s.slots[k].port);
    assert Claimed(s'.rows) == Claimed(s.rows) + {w.port} by {
      assert s'.rows[id] == w.port;
      assert forall r | r in s.rows :: s'.rows[r] == s.rows[r];
    }
    forall j: nat | j < |s'.slots| ensures SlotSound(s', j) {
      if j != k { WinKeepsSlots(s, s', w, j); }
    }
    forall i | 0 <= i < |s'.losses| ensures LossSound(s', s'.losses[i]) {
      var l := s.losses[i];
      assert LossSound(s, l);
      MoreWinsKeepBeaten(s, w, l.slot, l.port, l.since, l.until);
      assert BeatenBetween(s', l.slot, l.port, l.since, l.until);
    }
    assert forall r | r in s.rows :: s.rows[r] in Claimed(s.rows);
  }

  lemma LossKeepsHistory(pool: Pool, s: State, k: nat, id: nat)
    requires HistorySound(s) && k < |s.slots| && s.slots[k].Chosen? && id !in s.rows
    requires s.slots[k].port in Claimed(s.rows)
    ensures HistorySound(Next(pool, s, Insert(k, id)))
  {
    var s' := Next(pool, s, Insert(k, id));
    assert SlotSound(s, k);
    SlotStepKeepsHistory(s, s.(slots := s'.slots), k);
    forall i | 0 <= i < |s'.losses| ensures LossSound(s', s'.losses[i]) {
      if i < |s.losses| {
        assert LossSound(s, s.losses[i]);
      }
    }
    forall j: nat | j < |s'.slots| ensures SlotSound(s', j) {
      assert SlotSound(s.(slots := s'.slots), j);
    }
  }

  /** One slot changes; what it claims to know, if anything, is sound in itself. */
  lemma SlotStepKeepsHistory(s: State, s': State, k: nat)
    requires HistorySound(s) && k < |s.slots|
    requires |s'.slots| == |s.slots| && s' == s.(slots := s.slots[k := s'.slots[k]])
    requires SlotSound(s', k)
    ensures HistorySound(s')
  {
    forall j: nat | j < |s'.slots| ensures SlotSound(s', j) {
      if j != k { assert SlotSound(s, j); }
    }
    forall i | 0 <= i < |s'.losses| ensures LossSound(s', s'.losses[i]) {
      assert LossSound(s, s.losses[i]);
    }
  }

  lemma DeleteKeepsHistory(s: State, id: nat)
    requires HistorySound(s)
    ensures HistorySound(s.(rows := s.rows - {id}))
  {
    var s' := s.(rows := s.rows - {id});
    assert Claimed(s'.rows) <= Claimed(s.rows);
    forall j: nat | j < |s'.slots| ensures SlotSound(s', j) {
      assert SlotSound(s, j);
    }
    forall i | 0 <= i < |s'.losses| ensures LossSound(s', s'.losses[i]) {
      assert LossSound(s, s.losses[i]);
    }
  }

  lemma NextKeepsHistory(pool: Pool, s: State, step: Step)
    requires HistorySound(s)
    ensures HistorySound(Next(pool, s, step))
  {
    var s' := Next(pool, s, step);
    if s' != s {
      match step
      case Check(k) => SlotStepKeepsHistory(s, s', k);
      case Read(k, _) => SlotStepKeepsHistory(s, s', k);
      case Quit(k) => SlotStepKeepsHistory(s, s', k);
      case Delete(id) => DeleteKeepsHistory(s, id);
      case Insert(k, id) =>
        if s.slots[k].port in Claimed(s.rows) { LossKeepsHistory(pool, s, k, id); }
        else { WinKeepsHistory(pool, s, k, id); }
    }
  }

  /** Under every interleaving each "port was just taken" is owed to another create that inserted the very same port
      between this one's port read and its insert, and ports stay pairwise distinct. */
  lemma {:induction false} EveryLossHasAWinner(pool: Pool, s: State, run: seq<Step>)
    requires HistorySound(s)
    ensures HistorySound(After(pool, s, run))
    decreases |run|
  {
    if run != [] {
      NextKeepsHistory(pool, s, run[0]);
      EveryLossHasAWinner(pool, Next(pool, s, run[0]), run[1..]);
    }
  }

  // --- how many races can be lost ---

  function Indices(n: nat): (r: set<nat>)
    ensures forall k: nat :: k in r <==> k < n
    ensures |r| == n
  {
    if n == 0 then {} else Indices(n - 1) + {n - 1}
  }

  /** Slots whose choice another request has already inserted: the losses still to come. */
  ghost function Doomed(s: State): set<nat> {
    set k: nat | k in Indices(|s.slots|) && s.slots[k].Chosen?
                 && BeatenBetween(s, k, s.slots[k].port, s.slots[k].since, |s.wins|)
  }

  /** Losses so far and losses still to come, against K-1 for every win. */
  ghost predicate Budget(s: State, n: nat) {
    |s.slots| == n >= 1 && |s.losses| + |Doomed(s)| <= (n - 1) * |s.wins|
  }

  lemma WinDoomsOthers(s: State, s': State, w: Win)
    requires w.slot < |s.slots| && s'.slots == s.slots[w.slot := Idle]
    ensures |Doomed(s')| <= |s.slots| - 1
  {
    assert w.slot !in Doomed(s');
    SubsetSize(Doomed(s'), Indices(|s.slots|) - {w.slot});
  }

  lemma WinKeepsBudget(s: State, s': State, w: Win, n: nat)
    requires Budget(s, n) && w.slot < n
    requires s'.wins == s.wins + [w] && s'.losses == s.losses && s'.slots == s.slots[w.slot := Idle]
    ensures Budget(s', n)
  {
    WinDoomsOthers(s, s', w);
    Distribute(n - 1, |s.wins|);
  }

  lemma Distribute(a: int, b: int)
    ensures a * (b + 1) == a * b + a
  {
  }

  lemma LossKeepsBudget(s: State, s': State, k: nat, l: Loss, n: nat)
    requires Budget(s, n) && k in Doomed(s)
    requires s'.wins == s.wins && s'.losses == s.losses + [l] && s'.slots == s.slots[k := Idle]
    ensures Budget(s', n)
  {
    assert Doomed(s') <= Doomed(s) - {k};
    SubsetSize(Doomed(s'), Doomed(s) - {k});
  }

  /** A slot that starts over or reads the ports afresh is not doomed. */
  lemma SlotStepKeepsBudget(s: State, s': State, k: nat, n: nat)
    requires Budget(s, n) && k < n
    requires |s'.slots| == n && s'.slots == s.slots[k := s'.slots[k]]
    requires s'.wins == s.wins && s'.losses == s.losses && (s'.slots[k].Chosen? ==> s'.slots[k].since == |s.wins|)
    ensures Budget(s', n)
  {
    assert Doomed(s') <= Doomed(s);
    SubsetSize(Doomed(s'), Doomed(s));
  }

  lemma NextKeepsBudget(pool: Pool, s: State, step: Step, n: nat)
    requires HistorySound(s) && Budget(s, n)
    ensures Budget(Next(pool, s, step), n)
  {
    var s' := Next(pool, s, step);
    if s' != s {
      match step
      case Check(k) => SlotStepKeepsBudget(s, s', k, n);
      case Read(k, _) => SlotStepKeepsBudget(s, s', k, n);
      case Quit(k) => SlotStepKeepsBudget(s, s', k, n);
      case Delete(_) => assert Doomed(s') == Doomed(s);
      case Insert(k, id) =>
        if s.slots[k].port in Claimed(s.rows) {
          assert SlotSound(s, k);
          LossKeepsBudget(s, s', k, s'.losses[|s.losses|], n);
        } else {
          WinKeepsBudget(s, s', Win(k, s.slots[k].port), n);
        }
    }
  }

  lemma {:induction false} RunKeepsBudget(pool: Pool, s: State, run: seq<Step>, n: nat)
    requires HistorySound(s) && Budget(s, n)
    ensures Budget(After(pool, s, run), n)
    decreases |run|
  {
    if run != [] {
      NextKeepsHistory(pool, s, run[0]);
      NextKeepsBudget(pool, s, run[0], n);
      RunKeepsBudget(pool, Next(pool, s, run[0]), run[1..], n);
    }
  }

  /** With K requests in flight, retrying as often as they like, lost races never outnumber K-1 per success. */
  lemma LostRacesAreBounded(pool: Pool, s: State, run: seq<Step>, n: nat)
    requires Quiet(s) && DistinctRows(s.rows) && |s.slots| == n >= 1
    ensures var t := After(pool, s, run); |t.losses| <= (n - 1) * |t.wins|
  {
    assert Doomed(s) == {};
    RunKeepsBudget(pool, s, run, n);
  }

  lemma {:induction false} SlotsStay(pool: Pool, s: State, run: seq<Step>)
    ensures |After(pool, s, run).slots| == |s.slots|
    decreases |run|
  {
    if run != [] {
      SlotsStay(pool, Next(pool, s, run[0]), run[1..]);
    }
  }

  // --- the cap ---

  function InFlight(s: State): set<nat> {
    set k: nat | k in Indices(|s.slots|) && !s.slots[k].Idle?
  }

  /** Rows, plus requests past the cap check, overshoot the cap by fewer than the requests that may be in flight. */
  predicate Capped(pool: Pool, s: State) {
    |s.rows| + |InFlight(s)| <= pool.maxServers - 1 + |s.slots|
  }

  /** A request that leaves the protocol, with or without a row, takes itself out of the flight. */
  lemma LeavingShrinksFlight(s: State, s': State, k: nat)
    requires k < |s.slots| && s'.slots == s.slots[k := Idle]
    ensures InFlight(s') == InFlight(s) - {k}
  {
  }

  lemma StayingKeepsFlight(s: State, s': State, k: nat)
    requires k < |s.slots| == |s'.slots| && s'.slots == s.slots[k := s'.slots[k]]
    requires !s.slots[k].Idle?
    ensures |InFlight(s')| <= |InFlight(s)|
  {
    SubsetSize(InFlight(s'), InFlight(s));
  }

  lemma InsertKeepsCap(s: State, s': State, k: nat)
    requires k < |s.slots| && !s.slots[k].Idle? && s'.slots == s.slots[k := Idle]
    requires exists id :: s'.rows.Keys <= s.rows.Keys + {id}
    ensures |s'.rows| + |InFlight(s')| <= |s.rows| + |InFlight(s)|
  {
    LeavingShrinksFlight(s, s', k);
    assert k in InFlight(s);
    var id :| s'.rows.Keys <= s.rows.Keys + {id};
    SubsetSize(s'.rows.Keys, s.rows.Keys + {id});
  }

  lemma CheckKeepsCap(pool: Pool, s: State, k: nat)
    requires Capped(pool, s)
    ensures Capped(pool, Next(pool, s, Check(k)))
  {
    SubsetSize(InFlight(Next(pool, s, Check(k))), Indices(|s.slots|));
  }

  lemma ReadKeepsCap(pool: Pool, s: State, k: nat, busy: set<int>)
    requires Capped(pool, s)
    ensures Capped(pool, Next(pool, s, Read(k, busy)))
  {
    if k < |s.slots| && s.slots[k].Passed? {
      StayingKeepsFlight(s, Next(pool, s, Read(k, busy)), k);
    }
  }

  lemma InsertStepKeepsCap(pool: Pool, s: State, k: nat, id: nat)
    requires Capped(pool, s)
    ensures Capped(pool, Next(pool, s, Insert(k, id)))
  {
    var s' := Next(pool, s, Insert(k, id));
    if k < |s.slots| && s.slots[k].Chosen? && id !in s.rows {
      assert s'.rows.Keys <= s.rows.Keys + {id};
      InsertKeepsCap(s, s', k);
    }
  }

  lemma QuitKeepsCap(pool: Pool, s: State, k: nat)
    requires Capped(pool, s)
    ensures Capped(pool, Next(pool, s, Quit(k)))
  {
    if k < |s.slots| {
      LeavingShrinksFlight(s, Next(pool, s, Quit(k)), k);
    }
  }

  lemma DeleteKeepsCap(pool: Pool, s: State, id: nat)
    requires Capped(pool, s)
    ensures Capped(pool, Next(pool, s, Delete(id)))
  {
    SubsetSize((s.rows - {id}).Keys, s.rows.Keys);
  }

  lemma NextKeepsCap(pool: Pool, s: State, step: Step)
    requires Capped(pool, s)
    ensures Capped(pool, Next(pool, s, step))
  {
    match step
    case Check(k) => CheckKeepsCap(pool, s, k);
    case Read(k, busy) => ReadKeepsCap(pool, s, k, busy);
    case Insert(k, id) => InsertStepKeepsCap(pool, s, k, id);
    case Quit(k) => QuitKeepsCap(pool, s, k);
    case Delete(id) => DeleteKeepsCap(pool, s, id);
  }

  lemma {:induction false} RunKeepsCap(pool: Pool, s: State, run: seq<Step>)
    requires Capped(pool, s)
    ensures Capped(pool, After(pool, s, run))
    decreases |run|
  {
    if run != [] {
      NextKeepsCap(pool, s, run[0]);
      RunKeepsCap(pool, Next(pool, s, run[0]), run[1..]);
    }
  }

  /** At most K in flight: never more than K-1 rows over the cap, so one request at a time keeps it exactly. */
  lemma CapOvershoot(pool: Pool, s: State, run: seq<Step>)
    requires Quiet(s) && |s.rows| <= pool.maxServers - 1 + |s.slots|
    ensures |After(pool, s, run).rows| <= pool.maxServers - 1 + |s.slots|
    ensures |s.slots| == 1 ==> |After(pool, s, run).rows| <= pool.maxServers
  {
    assert InFlight(s) == {};
    RunKeepsCap(pool, s, run);
    SlotsStay(pool, s, run);
  }

  // --- the pool ---

  ghost predicate InPool(pool: Pool, s: State) {
    && (forall id | id in s.rows :: pool.start <= s.rows[id] <= pool.end)
    && (forall k | 0 <= k < |s.slots| && s.slots[k].Chosen? :: pool.start <= s.slots[k].port <= pool.end)
  }

  lemma {:induction false} RunStaysInPool(pool: Pool, s: State, run: seq<Step>)
    requires InPool(pool, s)
    ensures InPool(pool, After(pool, s, run))
    decreases |run|
  {
    if run != [] {
      RunStaysInPool(pool, Next(pool, s, run[0]), run[1..]);
    }
  }

  lemma ClaimSplits(rows: map<nat, int>, id: nat)
    requires id in rows
    ensures Claimed(rows) == Claimed(rows - {id}) + {rows[id]}
  {
    forall p | p in Claimed(rows) ensures p in Claimed(rows - {id}) + {rows[id]} {
      var r :| r in rows && rows[r] == p;
      assert r == id || r in rows - {id};
    }
  }

  lemma {:induction false} DistinctRowsClaimEachAPort(rows: map<nat, int>)
    requires DistinctRows(rows)
    ensures |Claimed(rows)| == |rows|
    decreases |rows|
  {
    if rows != map[] {
      var id :| id in rows;
      var rest := rows - {id};
      assert rest.Keys == rows.Keys - {id};
      DistinctRowsClaimEachAPort(rest);
      ClaimSplits(rows, id);
    }
  }

  /** From an empty registry the pool is never oversubscribed: distinct ports of one range. */
  lemma RowsFitThePool(pool: Pool, s: State, run: seq<Step>)
    requires Quiet(s) && s.rows == map[] && pool.start <= pool.end
    ensures var t := After(pool, s, run);
            DistinctRows(t.rows) && InPool(pool, t) && |t.rows| <= pool.end - pool.start + 1
  {
    var t := After(pool, s, run);
    EveryLossHasAWinner(pool, s, run);
    RunStaysInPool(pool, s, run);
    DistinctRowsClaimEachAPort(t.rows);
    SubsetSize(Claimed(t.rows), Range(pool.start, pool.end));
  }

  /** With probing off, no request past the cap check finds the pool exhausted while the cap plus the requests in
      flight, less two, stay below the number of ports. */
  lemma PoolOutlastsCap(pool: Pool, s: State, run: seq<Step>, k: nat)
    requires Quiet(s) && |s.rows| <= pool.maxServers - 1 + |s.slots|
    requires pool.maxServers + |s.slots| - 2 < pool.end - pool.start + 1
    requires var t := After(pool, s, run); k < |t.slots| && t.slots[k].Passed?
    ensures LowestFree(pool.start, pool.end, Claimed(After(pool, s, run).rows), {}).Some?
  {
    var t := After(pool, s, run);
    assert InFlight(s) == {};
    RunKeepsCap(pool, s, run);
    SlotsStay(pool, s, run);
    assert k in InFlight(t);
    ClaimsAreFewerThanRows(t.rows);
    ExhaustedMeansAllClaimed(pool.start, pool.end, Claimed(t.rows));
  }

  lemma {:induction false} ClaimsAreFewerThanRows(rows: map<nat, int>)
    ensures |Claimed(rows)| <= |rows|
    decreases |rows|
  {
    if rows != map[] {
      var id :| id in rows;
      var rest := rows - {id};
      assert rest.Keys == rows.Keys - {id};
      ClaimsAreFewerThanRows(rest);
      ClaimSplits(rows, id);
    }
  }

  // --- the overshoot is real ---

  /** IDs are numbered as they come, so the next number is fresh. */
  ghost predicate Numbered(rows: map<nat, int>) {
    forall id | id in rows :: id < |rows|
  }

  lemma One(pool: Pool, s: State, a: Step)
    ensures After(pool, s, [a]) == Next(pool, s, a)
  {
    assert [a][1..] == [];
    assert After(pool, Next(pool, s, a), []) == Next(pool, s, a);
  }

  lemma Two(pool: Pool, s: State, a: Step, b: Step)
    ensures After(pool, s, [a, b]) == Next(pool, Next(pool, s, a), b)
  {
    AfterConcat(pool, s, [a], [b]);
    assert [a] + [b] == [a, b];
    One(pool, s, a);
    One(pool, Next(pool, s, a), b);
  }

  /** A request past the cap check that is left alone gets its row, if the pool has more ports than there are rows. */
  lemma Land(pool: Pool, s: State, k: nat) returns (run: seq<Step>)
    requires k < |s.slots| && s.slots[k] == Passed && Numbered(s.rows)
    requires |s.rows| < pool.end - pool.start + 1
    ensures var t := After(pool, s, run);
            && t.slots == s.slots[k := Idle]
            && |t.rows| == |s.rows| + 1 && Numbered(t.rows)
  {
    ClaimsAreFewerThanRows(s.rows);
    ExhaustedMeansAllClaimed(pool.start, pool.end, Claimed(s.rows));
    run := [Read(k, {}), Insert(k, |s.rows|)];
    Two(pool, s, Read(k, {}), Insert(k, |s.rows|));
  }

  lemma {:induction false} LandAll(pool: Pool, s: State, n: nat) returns (run: seq<Step>)
    requires n <= |s.slots| && Numbered(s.rows)
    requires forall k | 0 <= k < n :: s.slots[k] == Passed
    requires |s.rows| + n <= pool.end - pool.start + 1
    ensures |After(pool, s, run).rows| == |s.rows| + n
    decreases n
  {
    if n == 0 {
      run := [];
    } else {
      var first := Land(pool, s, n - 1);
      var rest := LandAll(pool, After(pool, s, first), n - 1);
      run := first + rest;
      AfterConcat(pool, s, first, rest);
    }
  }

  /** Everyone passes the cap check while there is still room for one. */
  lemma {:induction false} CheckAll(pool: Pool, s: State, n: nat) returns (run: seq<Step>)
    requires n <= |s.slots| && |s.rows| < pool.maxServers
    requires forall k | 0 <= k < n :: s.slots[k] == Idle
    ensures var t := After(pool, s, run);
            && t.rows == s.rows && t.wins == s.wins && t.losses == s.losses && |t.slots| == |s.slots|
            && (forall k | 0 <= k < n :: t.slots[k] == Passed)
            && t.slots[n..] == s.slots[n..]
    decreases n
  {
    if n == 0 {
      run := [];
    } else {
      var first := [Check(n - 1)];
      var t := After(pool, s, first);
      One(pool, s, Check(n - 1));
      var rest := CheckAll(pool, t, n - 1);
      run := first + rest;
      AfterConcat(pool, s, first, rest);
      assert After(pool, t, rest).slots[n - 1] == t.slots[n - 1..][0];
    }
  }

  lemma {:induction false} FillSerially(pool: Pool, s: State, n: nat) returns (run: seq<Step>)
    requires |s.slots| >= 1 && s.slots[0] == Idle && Numbered(s.rows)
    requires |s.rows| + n <= pool.maxServers && |s.rows| + n <= pool.end - pool.start + 1
    ensures var t := After(pool, s, run);
            t.slots == s.slots && |t.rows| == |s.rows| + n && Numbered(t.rows)
    decreases n
  {
    if n == 0 {
      run := [];
    } else {
      var check := [Check(0)];
      var passed := After(pool, s, check);
      One(pool, s, Check(0));
      var land := Land(pool, passed, 0);
      AfterConcat(pool, s, check, land);
      assert s.slots[0 := Passed][0 := Idle] == s.slots;
      var rest := FillSerially(pool, After(pool, s, check + land), n - 1);
      AfterConcat(pool, s, check + land, rest);
      run := check + land + rest;
    }
  }

  /** For every cap and every number of requests in flight, some run ends with K-1 servers over the cap. */
  lemma OvershootIsReached(pool: Pool, n: nat) returns (run: seq<Step>)
    requires n >= 1 && pool.maxServers >= 1
    requires pool.maxServers - 1 + n <= pool.end - pool.start + 1
    ensures |After(pool, State(map[], seq(n, _ => Idle), [], []), run).rows| == pool.maxServers - 1 + n
  {
    var s := State(map[], seq(n, _ => Idle), [], []);
    var fill := FillSerially(pool, s, pool.maxServers - 1);
    var filled := After(pool, s, fill);
    var check := CheckAll(pool, filled, n);
    var land := LandAll(pool, After(pool, filled, check), n);
    AfterConcat(pool, s, fill, check);
    AfterConcat(pool, s, fill + check, land);
    run := fill + check + land;
  }

  // --- the charge is real ---

  /** Everyone reads the ports before anyone inserts, and everyone picks the same one. */
  lemma {:induction false} ReadAll(pool: Pool, s: State, n: nat) returns (run: seq<Step>)
    requires n <= |s.slots| && s.rows == map[] && pool.start <= pool.end
    requires forall k | 0 <= k < n :: s.slots[k] == Passed
    ensures var t := After(pool, s, run);
            && t.rows == s.rows && t.wins == s.wins && t.losses == s.losses && |t.slots| == |s.slots|
            && (forall k | 0 <= k < n :: t.slots[k] == Chosen(pool.start, |s.wins|))
            && t.slots[n..] == s.slots[n..]
    decreases n
  {
    if n == 0 {
      run := [];
    } else {
      var first := [Read(n - 1, {})];
      var t := After(pool, s, first);
      One(pool, s, Read(n - 1, {}));
      assert LowestFree(pool.start, pool.end, Claimed(s.rows), {}) == Some(pool.start);
      var rest := ReadAll(pool, t, n - 1);
      run := first + rest;
      AfterConcat(pool, s, first, rest);
      assert After(pool, t, rest).slots[n - 1] == t.slots[n - 1..][0];
    }
  }

  lemma {:induction false} LoseAll(pool: Pool, s: State, n: nat, id: nat) returns (run: seq<Step>)
    requires n <= |s.slots| && id !in s.rows
    requires forall k | 0 <= k < n :: s.slots[k].Chosen? && s.slots[k].port in Claimed(s.rows)
    ensures var t := After(pool, s, run); t.wins == s.wins && |t.losses| == |s.losses| + n
    decreases n
  {
    if n == 0 {
      run := [];
    } else {
      var first := [Insert(n - 1, id)];
      One(pool, s, Insert(n - 1, id));
      var rest := LoseAll(pool, After(pool, s, first), n - 1, id);
      run := first + rest;
      AfterConcat(pool, s, first, rest);
    }
  }

  /** The mutex does not stop K requests from picking one port between a read and an insert: some run has one winner and
      K-1 losers, so the bound is met exactly. */
  lemma BoundIsTight(pool: Pool, n: nat) returns (run: seq<Step>)
    requires n >= 1 && pool.maxServers >= 1 && pool.start <= pool.end
    ensures var t := After(pool, State(map[], seq(n, _ => Idle), [], []), run);
            |t.wins| == 1 && |t.losses| == n - 1
  {
    var s := State(map[], seq(n, _ => Idle), [], []);
    var check := CheckAll(pool, s, n);
    var checked := After(pool, s, check);
    var read := ReadAll(pool, checked, n);
    var chosen := After(pool, checked, read);
    var win := [Insert(n - 1, 0)];
    var won := After(pool, chosen, win);
    One(pool, chosen, Insert(n - 1, 0));
    assert won.rows[0] == pool.start;
    var lose := LoseAll(pool, won, n - 1, 1);
    AfterConcat(pool, s, check, read);
    AfterConcat(pool, s, check + read, win);
    AfterConcat(pool, s, check + read + win, lose);
    run := check + read + win + lose;
  }
}
