/** The SQLite registry of `internal/store/sqlite.go`: two tables with UNIQUE and foreign-key constraints.
    Each statement is a function on a `Registry` value; class `Store` runs the statements on mutable tables. */
module Registries {
  import opened Text
  import opened Models

  datatype Registry = Registry(users: map<string, User>, servers: map<string, Server>)

  datatype StoreError = RowNotFound | PortTaken | Constraint

  /** The table constraints of the schema: primary keys, UNIQUE columns, and the owner foreign key. */
  ghost predicate Consistent(r: Registry) {
    && (forall u | u in r.users :: r.users[u].id == u)
    && (forall u, v | u in r.users && v in r.users && r.users[u].username == r.users[v].username :: u == v)
    && (forall s | s in r.servers :: r.servers[s].id == s && r.servers[s].ownerID in r.users)
    && DistinctPorts(r.servers)
  }

  ghost predicate DistinctPorts(servers: map<string, Server>) {
    forall s, t | s in servers && t in servers && servers[s].port == servers[t].port :: s == t
  }

  function ClaimedPorts(servers: map<string, Server>): set<int> {
    set s | s in servers :: servers[s].port
  }

  function Owned(servers: map<string, Server>, owner: string): set<string> {
    set s | s in servers && servers[s].ownerID == owner
  }

  function Owners(servers: map<string, Server>): set<string> {
    set s | s in servers :: servers[s].ownerID
  }

  function Admins(users: map<string, User>): set<string> {
    set u | u in users && users[u].isAdmin
  }

  // --- statements on users ---

  function InsertUser(r: Registry, u: User): Result<Registry, StoreError> {
    if u.id in r.users || exists v | v in r.users :: r.users[v].username == u.username then Err(Constraint)
    else Ok(r.(users := r.users[u.id := u]))
  }

  function SetUserAdmin(r: Registry, id: string, isAdmin: bool): Result<Registry, StoreError> {
    if id !in r.users then Err(RowNotFound)
    else Ok(r.(users := r.users[id := r.users[id].(isAdmin := isAdmin)]))
  }

  function SetUserPassword(r: Registry, id: string, passwordHash: string): Result<Registry, StoreError> {
    if id !in r.users then Err(RowNotFound)
    else Ok(r.(users := r.users[id := r.users[id].(passwordHash := passwordHash)]))
  }

  /** Deleting a user cascades to every server the user owns. */
  function DeleteUser(r: Registry, id: string): Result<Registry, StoreError> {
    if id !in r.users then Err(RowNotFound)
    else Ok(Registry(r.users - {id}, r.servers - Owned(r.servers, id)))
  }

  function ReassignServers(r: Registry, from: string, to: string): Result<Registry, StoreError> {
    if to !in r.users && Owned(r.servers, from) != {} then Err(Constraint)
    else
      Ok(r.(servers := map s | s in r.servers ::
        if r.servers[s].ownerID == from then r.servers[s].(ownerID := to) else r.servers[s]))
  }

  // --- statements on servers ---

  function InsertServer(r: Registry, srv: Server): Result<Registry, StoreError> {
    if srv.id in r.servers || srv.port in ClaimedPorts(r.servers) then Err(PortTaken)
    else if srv.ownerID !in r.users then Err(Constraint)
    else Ok(r.(servers := r.servers[srv.id := srv]))
  }

  /** The mutable columns come from `srv`; the row keeps its port and owner. */
  function UpdateServer(r: Registry, srv: Server): Result<Registry, StoreError> {
    if srv.id !in r.servers then Err(RowNotFound)
    else
      var row := r.servers[srv.id];
      Ok(r.(servers := r.servers[srv.id := srv.(ownerID := row.ownerID, port := row.port)]))
  }

  function SetStatus(r: Registry, id: string, status: Status, message: string): Result<Registry, StoreError> {
    if id !in r.servers then Err(RowNotFound)
    else Ok(r.(servers := r.servers[id := r.servers[id].(status := status, message := message)]))
  }

  function SetContainerID(r: Registry, id: string, containerID: string): Result<Registry, StoreError> {
    if id !in r.servers then Err(RowNotFound)
    else Ok(r.(servers := r.servers[id := r.servers[id].(containerID := containerID)]))
  }

  function DeleteServer(r: Registry, id: string): Result<Registry, StoreError> {
    if id !in r.servers then Err(RowNotFound)
    else Ok(r.(servers := r.servers - {id}))
  }

  // --- what the statements keep ---

  lemma InsertUserKeepsConsistency(r: Registry, u: User)
    requires Consistent(r) && InsertUser(r, u).Ok?
    ensures Consistent(InsertUser(r, u).value)
  {
  }

  lemma InsertServerKeepsConsistency(r: Registry, srv: Server)
    requires Consistent(r) && InsertServer(r, srv).Ok?
    ensures Consistent(InsertServer(r, srv).value)
  {
    assert forall s | s in r.servers :: r.servers[s].port in ClaimedPorts(r.servers);
  }

  /** A row may be rewritten in every column but its port and its key. */
  lemma RewrittenRowKeepsConsistency(r: Registry, row: Server)
    requires Consistent(r) && row.id in r.servers
    requires row.port == r.servers[row.id].port && row.ownerID in r.users
    ensures Consistent(r.(servers := r.servers[row.id := row]))
  {
  }

  lemma SetUserAdminKeepsConsistency(r: Registry, id: string, isAdmin: bool)
    requires Consistent(r) && SetUserAdmin(r, id, isAdmin).Ok?
    ensures Consistent(SetUserAdmin(r, id, isAdmin).value)
  {
  }

  lemma SetUserPasswordKeepsConsistency(r: Registry, id: string, passwordHash: string)
    requires Consistent(r) && SetUserPassword(r, id, passwordHash).Ok?
    ensures Consistent(SetUserPassword(r, id, passwordHash).value)
  {
  }

  /** Deletion stays consistent only because of the cascade: no row is left pointing at a missing owner. */
  lemma DeleteUserKeepsConsistency(r: Registry, id: string)
    requires Consistent(r) && DeleteUser(r, id).Ok?
    ensures Consistent(DeleteUser(r, id).value)
  {
    var after := DeleteUser(r, id).value;
    forall s | s in after.servers ensures after.servers[s].ownerID in after.users {
      assert s !in Owned(r.servers, id);
    }
  }

  lemma ReassignKeepsConsistency(r: Registry, from: string, to: string)
    requires Consistent(r) && ReassignServers(r, from, to).Ok?
    ensures Consistent(ReassignServers(r, from, to).value)
  {
    var after := ReassignServers(r, from, to).value;
    forall s | s in after.servers ensures after.servers[s].id == s && after.servers[s].ownerID in after.users {
      if r.servers[s].ownerID == from {
        assert s in Owned(r.servers, from);
      }
    }
  }

  /** Hands every server of `from` to `to`, then deletes the account `from`. */
  function TransferAndDelete(r: Registry, from: string, to: string): Registry
    requires from in r.users && to in r.users
  {
    DeleteUser(ReassignServers(r, from, to).value, from).value
  }

  /** After a reassignment the cascade has nothing to drop: the rows only change their owner. */
  lemma ReassignmentShieldsRows(r: Registry, from: string, to: string)
    requires from != to && to in r.users && from in r.users
    ensures var after := TransferAndDelete(r, from, to);
            && after.users == r.users - {from}
            && after.servers == ReassignServers(r, from, to).value.servers
            && after.servers.Keys == r.servers.Keys
            && (forall s | s in r.servers :: after.servers[s].(ownerID := r.servers[s].ownerID) == r.servers[s])
            && Owned(after.servers, to) == Owned(r.servers, to) + Owned(r.servers, from)
  {
    var moved := ReassignServers(r, from, to).value;
    assert Owned(moved.servers, from) == {};
    assert moved.servers - {} == moved.servers;
  }

  lemma TransferAndDeleteKeepsConsistency(r: Registry, from: string, to: string)
    requires Consistent(r) && from != to && to in r.users && from in r.users
    ensures Consistent(TransferAndDelete(r, from, to))
  {
    ReassignKeepsConsistency(r, from, to);
    DeleteUserKeepsConsistency(ReassignServers(r, from, to).value, from);
  }

  // --- when a statement goes through ---

  /** An account is accepted exactly when its ID is free and the table keeps its constraints with it. */
  lemma InsertUserAcceptsExactly(r: Registry, u: User)
    requires Consistent(r)
    ensures var with_ := r.(users := r.users[u.id := u]);
            InsertUser(r, u) == if u.id !in r.users && Consistent(with_) then Ok(with_) else Err(Constraint)
  {
    var users' := r.users[u.id := u];
    if v :| v in r.users && v != u.id && r.users[v].username == u.username {
      assert users'[v].username == users'[u.id].username;
    }
  }

  /** So is a server. A taken ID or port is told apart from a missing owner. */
  lemma InsertServerAcceptsExactly(r: Registry, srv: Server)
    requires Consistent(r)
    ensures var with_ := r.(servers := r.servers[srv.id := srv]);
            && (InsertServer(r, srv) == Ok(with_) <==> srv.id !in r.servers && Consistent(with_))
            && (InsertServer(r, srv).Ok? ==> InsertServer(r, srv) == Ok(with_))
            && (InsertServer(r, srv) == Err(PortTaken) <==>
                  srv.id in r.servers || exists s :: s in r.servers && r.servers[s].port == srv.port)
  {
    var servers' := r.servers[srv.id := srv];
    if InsertServer(r, srv).Ok? {
      InsertServerKeepsConsistency(r, srv);
    }
    if s :| s in r.servers && s != srv.id && r.servers[s].port == srv.port {
      assert servers'[s].port == servers'[srv.id].port;
    }
    assert servers'[srv.id] == srv;
  }

  /** A full-row update takes every column but port and owner from the snapshot. */
  lemma UpdateServerAnswers(r: Registry, srv: Server)
    ensures UpdateServer(r, srv).Ok? <==> srv.id in r.servers
    ensures UpdateServer(r, srv).Ok? ==>
              var after, was := UpdateServer(r, srv).value, r.servers[srv.id];
              && after.users == r.users && after.servers.Keys == r.servers.Keys
              && (forall s | s in r.servers && s != srv.id :: after.servers[s] == r.servers[s])
              && after.servers[srv.id].port == was.port && after.servers[srv.id].ownerID == was.ownerID
              && after.servers[srv.id].(port := srv.port, ownerID := srv.ownerID) == srv
  {
  }

  /** The cascade takes the rows of the deleted user, all of them and no other. */
  lemma DeleteUserAnswers(r: Registry, id: string)
    ensures DeleteUser(r, id) == Err(RowNotFound) <==> id !in r.users
    ensures id in r.users ==>
              var after := DeleteUser(r, id).value;
              && after.users == r.users - {id}
              && forall s ::
                   && (s in after.servers <==> s in r.servers && r.servers[s].ownerID != id)
                   && (s in after.servers ==> after.servers[s] == r.servers[s])
  {
  }

  // --- grouped counts ---

  function GroupedCounts(servers: map<string, Server>): map<string, int> {
    map o | o in Owners(servers) :: |Owned(servers, o)|
  }

  ghost function Pick(from: set<string>): (o: string)
    requires from != {}
    ensures o in from
  {
    var o :| o in from; o
  }

  ghost function Total(counts: map<string, int>, over: set<string>): int
    requires over <= counts.Keys
  {
    if over == {} then 0 else counts[Pick(over)] + Total(counts, over - {Pick(over)})
  }

  /** Summing the per-owner counts over any set of owners counts exactly the rows they own. */
  lemma {:induction false} TotalCountsRows(servers: map<string, Server>, over: set<string>)
    requires over <= Owners(servers)
    ensures Total(GroupedCounts(servers), over) == |set s | s in servers && servers[s].ownerID in over|
    decreases over
  {
    if over == {} {
      assert (set s | s in servers && servers[s].ownerID in over) == {};
    } else {
      var o := Pick(over);
      TotalCountsRows(servers, over - {o});
      var rest := set s | s in servers && servers[s].ownerID in over - {o};
      assert (set s | s in servers && servers[s].ownerID in over) == rest + Owned(servers, o);
      assert rest !! Owned(servers, o);
    }
  }

  /** The grouped counts always add up to the number of rows. */
  lemma GroupedCountsTotal(servers: map<string, Server>)
    ensures Total(GroupedCounts(servers), Owners(servers)) == |servers|
  {
    TotalCountsRows(servers, Owners(servers));
    assert (set s | s in servers && servers[s].ownerID in Owners(servers)) == servers.Keys;
  }

  /** The store: the two tables, changed statement by statement. */
  class Store {
    var users: map<string, User>
    var servers: map<string, Server>

    constructor ()
      ensures View() == Registry(map[], map[])
    {
      users, servers := map[], map[];
    }

    function View(): Registry
      reads this
    {
      Registry(users, servers)
    }

    method CreateUser(id: string, username: string, passwordHash: string, isAdmin: bool)
      returns (result: Result<User, StoreError>)
      modifies this
      ensures var u := User(id, username, passwordHash, isAdmin);
              match InsertUser(old(View()), u)
              case Ok(r) => View() == r && result == Ok(u)
              case Err(e) => View() == old(View()) && result == Err(e)
    {
      var u := User(id, username, passwordHash, isAdmin);
      if id in users || exists v | v in users :: users[v].username == username {
        return Err(Constraint);
      }
      users := users[id := u];
      return Ok(u);
    }

    method UserByID(id: string) returns (result: Option<User>)
      ensures result == if id in users then Some(users[id]) else None
    {
      return if id in users then Some(users[id]) else None;
    }

    method AnyUserExists() returns (exists_: bool)
      ensures exists_ <==> users != map[]
    {
      return |users| > 0;
    }

    method CountAdmins() returns (n: nat)
      ensures n == |Admins(users)|
    {
      return |Admins(users)|;
    }

    method SetAdmin(id: string, isAdmin: bool) returns (error: Option<StoreError>)
      modifies this
      ensures match SetUserAdmin(old(View()), id, isAdmin)
              case Ok(r) => View() == r && error == None
              case Err(e) => View() == old(View()) && error == Some(e)
    {
      if id !in users {
        return Some(RowNotFound);
      }
      users := users[id := users[id].(isAdmin := isAdmin)];
      return None;
    }

    method SetPassword(id: string, passwordHash: string) returns (error: Option<StoreError>)
      modifies this
      ensures match SetUserPassword(old(View()), id, passwordHash)
              case Ok(r) => View() == r && error == None
              case Err(e) => View() == old(View()) && error == Some(e)
    {
      if id !in users {
        return Some(RowNotFound);
      }
      users := users[id := users[id].(passwordHash := passwordHash)];
      return None;
    }

    method RemoveUser(id: string) returns (error: Option<StoreError>)
      modifies this
      ensures match DeleteUser(old(View()), id)
              case Ok(r) => View() == r && error == None
              case Err(e) => View() == old(View()) && error == Some(e)
    {
      if id !in users {
        return Some(RowNotFound);
      }
      users := users - {id};
      servers := servers - (set s | s in servers && servers[s].ownerID == id);
      return None;
    }

    /** The rows change hands one at a time; `moved` reports how many did. */
    method Reassign(from: string, to: string) returns (moved: Result<nat, StoreError>)
      modifies this`servers
      ensures match ReassignServers(old(View()), from, to)
              case Ok(r) => View() == r && moved == Ok(|Owned(old(servers), from)|)
              case Err(e) => View() == old(View()) && moved == Err(e)
    {
      var rows := Owned(servers, from);
      if to !in users && rows != {} {
        return Err(Constraint);
      }
      var todo := rows;
      while todo != {}
        invariant todo <= rows
        invariant servers.Keys == old(servers).Keys
        invariant forall s | s in servers :: servers[s] ==
                    if s in rows - todo then old(servers)[s].(ownerID := to) else old(servers)[s]
        decreases todo
      {
        var s :| s in todo;
        servers := servers[s := servers[s].(ownerID := to)];
        todo := todo - {s};
      }
      ghost var after := ReassignServers(old(View()), from, to).value.servers;
      assert servers.Keys == after.Keys;
      forall s | s in servers ensures servers[s] == after[s] {
        assert s in rows <==> old(servers)[s].ownerID == from;
      }
      return Ok(|rows|);
    }

    method ServerCountsByOwner() returns (counts: map<string, int>)
      ensures counts == GroupedCounts(servers)
    {
      counts := map[];
      var rows := Owners(servers);
      while rows != {}
        invariant rows <= Owners(servers)
        invariant counts.Keys == Owners(servers) - rows
        invariant forall o | o in counts :: counts[o] == |Owned(servers, o)|
        decreases rows
      {
        var owner :| owner in rows;
        counts := counts[owner := |Owned(servers, owner)|];
        rows := rows - {owner};
      }
    }

    method CreateServer(srv: Server) returns (error: Option<StoreError>)
      modifies this
      ensures match InsertServer(old(View()), srv)
              case Ok(r) => View() == r && error == None
              case Err(e) => View() == old(View()) && error == Some(e)
    {
      if srv.id in servers || exists s | s in servers :: servers[s].port == srv.port {
        return Some(PortTaken);
      }
      if srv.ownerID !in users {
        return Some(Constraint);
      }
      servers := servers[srv.id := srv];
      return None;
    }

    method ServerByID(id: string) returns (result: Option<Server>)
      ensures result == if id in servers then Some(servers[id]) else None
    {
      return if id in servers then Some(servers[id]) else None;
    }

    method CountServers() returns (n: nat)
      ensures n == |servers|
    {
      return |servers|;
    }

    method UsedPorts() returns (used: set<int>)
      ensures used == ClaimedPorts(servers)
    {
      used := {};
      var rows := servers.Keys;
      while rows != {}
        invariant rows <= servers.Keys
        invariant used == set s | s in servers.Keys - rows :: servers[s].port
        decreases rows
      {
        var s :| s in rows;
        used := used + {servers[s].port};
        rows := rows - {s};
      }
    }

    method Update(srv: Server) returns (error: Option<StoreError>)
      modifies this`servers
      ensures match UpdateServer(old(View()), srv)
              case Ok(r) => View() == r && error == None
              case Err(e) => View() == old(View()) && error == Some(e)
    {
      if srv.id !in servers {
        return Some(RowNotFound);
      }
      var row := servers[srv.id];
      servers := servers[srv.id := srv.(ownerID := row.ownerID, port := row.port)];
      return None;
    }

    method RecordStatus(id: string, status: Status, message: string) returns (error: Option<StoreError>)
      modifies this`servers
      ensures match SetStatus(old(View()), id, status, message)
              case Ok(r) => View() == r && error == None
              case Err(e) => View() == old(View()) && error == Some(e)
    {
      if id !in servers {
        return Some(RowNotFound);
      }
      servers := servers[id := servers[id].(status := status, message := message)];
      return None;
    }

    method RecordContainerID(id: string, containerID: string) returns (error: Option<StoreError>)
      modifies this`servers
      ensures match SetContainerID(old(View()), id, containerID)
              case Ok(r) => View() == r && error == None
              case Err(e) => View() == old(View()) && error == Some(e)
    {
      if id !in servers {
        return Some(RowNotFound);
      }
      servers := servers[id := servers[id].(containerID := containerID)];
      return None;
    }

    method RemoveServer(id: string) returns (error: Option<StoreError>)
      modifies this`servers
      ensures match DeleteServer(old(View()), id)
              case Ok(r) => View() == r && error == None
              case Err(e) => View() == old(View()) && error == Some(e)
    {
      if id !in servers {
        return Some(RowNotFound);
      }
      servers := servers - {id};
      return None;
    }
  }
}
