/** The user index of internal/store/memory.go: users by identifier and identifiers by name, against one
    table with a unique identifier and a unique name. */
module Users {
  import opened Domain
  import S = StoreModel

  datatype User = User(id: nat, userID: ID, username: string, nickname: string, email: string, phone: string, role: string,
                       active: bool, password: string)

  datatype UserPatch = UserPatch(nickname: Option<string>, email: Option<string>, phone: Option<string>, role: Option<string>,
                                 active: Option<bool>, password: Option<string>)

  function Patched(u: User, p: UserPatch): User {
    u.(nickname := S.OrElse(p.nickname, u.nickname), email := S.OrElse(p.email, u.email), phone := S.OrElse(p.phone, u.phone),
       role := S.OrElse(p.role, u.role), active := S.OrElse(p.active, u.active), password := S.OrElse(p.password, u.password))
  }

  function NewUser(u: User, last: nat, draws: nat): User {
    u.(id := last + 1, userID := if u.userID == NO_ID then Drawn(draws) else u.userID, active := true,
       role := if u.role == "" then "user" else u.role)
  }

  function DrawnFor(u: User, draws: nat): nat { if u.userID == NO_ID then draws + 1 else draws }

  // ---------------------------------------------------------------- the two maps

  datatype Index = Index(byID: map<ID, User>, byName: map<string, ID>, last: nat, draws: nat)

  function Create(ix: Index, u: User): Index {
    if u.username in ix.byName then ix
    else
      var row := NewUser(u, ix.last, ix.draws);
      Index(ix.byID[row.userID := row], ix.byName[u.username := row.userID], ix.last + 1, DrawnFor(u, ix.draws))
  }

  function Update(ix: Index, id: ID, p: UserPatch): Index {
    if id in ix.byID then ix.(byID := ix.byID[id := Patched(ix.byID[id], p)]) else ix
  }

  function Delete(ix: Index, id: ID): Index {
    if id in ix.byID then ix.(byName := ix.byName - {ix.byID[id].username}, byID := ix.byID - {id}) else ix
  }

  function ByName(ix: Index, name: string): Option<User> {
    if name in ix.byName && ix.byName[name] in ix.byID then Some(ix.byID[ix.byName[name]]) else None
  }

  function ByID(ix: Index, id: ID): Option<User> { if id in ix.byID then Some(ix.byID[id]) else None }

  datatype Op = Created(u: User) | Updated(id: ID, p: UserPatch) | Deleted(id: ID)

  function Do(ix: Index, op: Op): Index {
    match op
    case Created(u) => Create(ix, u)
    case Updated(id, p) => Update(ix, id, p)
    case Deleted(id) => Delete(ix, id)
  }

  function DoAll(ix: Index, ops: seq<Op>): Index {
    if ops == [] then ix else Do(DoAll(ix, ops[..|ops| - 1]), ops[|ops| - 1])
  }

  const NO_USERS := Index(map[], map[], 0, 0)

  /** Every stored user is under its own identifier, and its name leads back to it. */
  ghost predicate NamesPointBack(ix: Index) {
    forall id :: id in ix.byID ==>
      ix.byID[id].userID == id && ix.byID[id].username in ix.byName && ix.byName[ix.byID[id].username] == id
  }

  lemma {:induction false} AlwaysPointBack(ops: seq<Op>)
    ensures NamesPointBack(DoAll(NO_USERS, ops))
  {
    if ops != [] { AlwaysPointBack(ops[..|ops| - 1]); }
  }

  /** No name leads anywhere else. */
  ghost predicate NamesAreUsers(ix: Index) {
    forall name :: name in ix.byName ==> ix.byName[name] in ix.byID && ix.byID[ix.byName[name]].username == name
  }

  ghost predicate DrawnBefore(ix: Index) {
    forall id: ID :: id in ix.byID && id.Drawn? ==> id.n < ix.draws
  }

  /** Creating keeps the two maps inverse to each other exactly when it does not reuse an identifier that
      is taken: `CreateUser` checks the name only. */
  lemma CreateKeepsInverse(ix: Index, u: User)
    requires NamesPointBack(ix) && NamesAreUsers(ix) && DrawnBefore(ix) && !u.userID.Drawn?
    ensures NamesAreUsers(Create(ix, u)) <==> u.username in ix.byName || u.userID == NO_ID || u.userID !in ix.byID
  {
    if u.username !in ix.byName && u.userID != NO_ID && u.userID in ix.byID {
      var was := ix.byID[u.userID].username;
      assert was in Create(ix, u).byName && Create(ix, u).byName[was] == u.userID;
    }
  }

  /** Two users created with one identifier: the first one's name then leads to the second user. */
  lemma ReusedIdentifier(u: User, v: User)
    requires u.userID == v.userID == Text("u-1") && u.username != v.username
    ensures var ix := Create(Create(NO_USERS, u), v); ByName(ix, u.username).Some? && ByName(ix, u.username).value.username == v.username
  {
  }

  // -------------------------------------------------------------------- the table

  /** Rows in insertion order. */
  datatype Table = Table(rows: seq<User>, last: nat, draws: nat)

  function UserIDOf(u: User): ID { u.userID }

  function NameOf(u: User): ID { Text(u.username) }

  /** INSERT, refused when the name is taken; UPDATE and DELETE WHERE user_id = id. */
  function Insert(t: Table, u: User): Table {
    if S.Find(t.rows, NameOf, Text(u.username)) < |t.rows| then t
    else Table(t.rows + [NewUser(u, t.last, t.draws)], t.last + 1, DrawnFor(u, t.draws))
  }

  function Change(t: Table, id: ID, p: UserPatch): Table {
    var j := S.Find(t.rows, UserIDOf, id);
    if j < |t.rows| then t.(rows := t.rows[j := Patched(t.rows[j], p)]) else t
  }

  function Remove(t: Table, id: ID): Table {
    var j := S.Find(t.rows, UserIDOf, id);
    if j < |t.rows| then t.(rows := t.rows[..j] + t.rows[j + 1..]) else t
  }

  function Perform(t: Table, op: Op): Table {
    match op
    case Created(u) => Insert(t, u)
    case Updated(id, p) => Change(t, id, p)
    case Deleted(id) => Remove(t, id)
  }

  function PerformAll(t: Table, ops: seq<Op>): Table {
    if ops == [] then t else Perform(PerformAll(t, ops[..|ops| - 1]), ops[|ops| - 1])
  }

  ghost predicate InOrder(t: Table) {
    && (forall i :: 0 <= i < |t.rows| ==> t.rows[i].id <= t.last)
    && (forall i, j :: 0 <= i < j < |t.rows| ==> t.rows[i].id < t.rows[j].id)
  }

  /** The maps hold exactly the rows of the table, each under its identifier and its name. */
  ghost predicate Holds(ix: Index, rows: seq<User>) {
    && (forall i :: 0 <= i < |rows| ==>
          && rows[i].userID in ix.byID && ix.byID[rows[i].userID] == rows[i]
          && rows[i].username in ix.byName && ix.byName[rows[i].username] == rows[i].userID)
    && (forall id :: id in ix.byID ==> ix.byID[id] in rows && ix.byID[id].userID == id)
    && NamesAreUsers(ix)
  }

  ghost predicate Matches(ix: Index, t: Table) {
    ix.last == t.last && ix.draws == t.draws && DrawnBefore(ix) && InOrder(t) && Holds(ix, t.rows)
  }

  /** In matching maps every lookup answers from the table. */
  lemma {:induction false} LookupsAgree(ix: Index, t: Table, id: ID, name: string)
    requires Matches(ix, t)
    ensures ByID(ix, id) == (var j := S.Find(t.rows, UserIDOf, id); if j < |t.rows| then Some(t.rows[j]) else None)
    ensures ByName(ix, name) == (var j := S.Find(t.rows, NameOf, Text(name)); if j < |t.rows| then Some(t.rows[j]) else None)
  {
    var j, k := S.Find(t.rows, UserIDOf, id), S.Find(t.rows, NameOf, Text(name));
    if id in ix.byID {
      var i :| 0 <= i < |t.rows| && t.rows[i] == ix.byID[id];
      assert UserIDOf(t.rows[i]) == id;
    }
    if name in ix.byName {
      var i :| 0 <= i < |t.rows| && t.rows[i] == ix.byID[ix.byName[name]];
      assert NameOf(t.rows[i]) == Text(name);
    }
    hide S.Find;
    if j < |t.rows| { assert UserIDOf(t.rows[j]) == id; }
    if k < |t.rows| { assert NameOf(t.rows[k]) == Text(name); }
  }

  /** Identifiers and names of the table are unique. */
  lemma RowsAreUnique(ix: Index, t: Table)
    requires Matches(ix, t)
    ensures S.UniqueIDs(t.rows, UserIDOf) && S.UniqueIDs(t.rows, NameOf)
  {
    forall i, j | 0 <= i < j < |t.rows| ensures UserIDOf(t.rows[i]) != UserIDOf(t.rows[j]) && NameOf(t.rows[i]) != NameOf(t.rows[j]) {
      assert t.rows[i].id < t.rows[j].id;
    }
  }

  predicate Fresh(ix: Index, u: User) { !u.userID.Drawn? && (u.userID == NO_ID || u.userID !in ix.byID) }

  lemma {:induction false} HoldsMore(ix: Index, rows: seq<User>, row: User)
    requires Holds(ix, rows) && row.username !in ix.byName && row.userID !in ix.byID
    ensures Holds(ix.(byID := ix.byID[row.userID := row], byName := ix.byName[row.username := row.userID]), rows + [row])
  {
    forall id | id in ix.byID ensures ix.byID[id] in rows + [row] {}
    assert (rows + [row])[|rows|] == row;
  }

  lemma OrderSnoc(t: Table, row: User, t': Table)
    requires InOrder(t) && row.id == t.last + 1 == t'.last && t'.rows == t.rows + [row]
    ensures InOrder(t')
  {
  }

  lemma DrawnStays(ix: Index, row: User, ix': Index)
    requires DrawnBefore(ix) && ix.draws <= ix'.draws && ix'.byID == ix.byID[row.userID := row]
    requires row.userID.Drawn? ==> row.userID.n < ix'.draws
    ensures DrawnBefore(ix')
  {
  }

  lemma {:induction false} NewRowMatches(ix: Index, t: Table, row: User, draws: nat)
    requires Matches(ix, t) && row.username !in ix.byName && row.userID !in ix.byID && row.id == t.last + 1
    requires ix.draws <= draws && (row.userID.Drawn? ==> row.userID.n < draws)
    ensures Matches(Index(ix.byID[row.userID := row], ix.byName[row.username := row.userID], ix.last + 1, draws),
                    Table(t.rows + [row], t.last + 1, draws))
  {
    hide DrawnBefore, Holds, InOrder;
    var ix' := Index(ix.byID[row.userID := row], ix.byName[row.username := row.userID], ix.last + 1, draws);
    OrderSnoc(t, row, Table(t.rows + [row], t.last + 1, draws));
    HoldsMore(ix, t.rows, row);
    SameMaps(ix.(byID := ix'.byID, byName := ix'.byName), ix', t.rows + [row]);
    DrawnStays(ix, row, ix');
  }

  lemma SameMaps(ix: Index, ix': Index, rows: seq<User>)
    requires Holds(ix, rows) && ix'.byID == ix.byID && ix'.byName == ix.byName
    ensures Holds(ix', rows)
  {
  }

  lemma NewRowIsFresh(ix: Index, t: Table, u: User)
    requires Matches(ix, t) && Fresh(ix, u)
    ensures var row, draws := NewUser(u, t.last, t.draws), DrawnFor(u, t.draws);
            && row.userID !in ix.byID && row.username == u.username && row.id == t.last + 1
            && ix.draws <= draws && (row.userID.Drawn? ==> row.userID.n < draws)
            && ix.last == t.last && ix.draws == t.draws
  {
    hide InOrder, Holds;
  }

  lemma TakenAgrees(ix: Index, t: Table, name: string)
    requires Matches(ix, t)
    ensures name in ix.byName <==> S.Find(t.rows, NameOf, Text(name)) < |t.rows|
  {
    LookupsAgree(ix, t, NO_ID, name);
    NamedUser(ix, t, name);
    hide Matches, S.Find, ByName, ByID;
  }

  lemma {:induction false} CreateMatches(ix: Index, t: Table, u: User)
    requires Matches(ix, t) && Fresh(ix, u)
    ensures Matches(Create(ix, u), Insert(t, u))
  {
    hide NewUser, Matches, S.Find, DrawnFor, Fresh;
    NewRowIsFresh(ix, t, u);
    TakenAgrees(ix, t, u.username);
    if u.username !in ix.byName { NewRowMatches(ix, t, NewUser(u, t.last, t.draws), DrawnFor(u, t.draws)); }
  }

  lemma NamedUser(ix: Index, t: Table, name: string)
    requires Matches(ix, t)
    ensures name in ix.byName <==> ByName(ix, name).Some?
  {
  }

  lemma {:induction false} HoldsPatched(ix: Index, rows: seq<User>, j: nat, row: User)
    requires Holds(ix, rows) && j < |rows| && row.userID == rows[j].userID && row.username == rows[j].username
    requires forall i :: 0 <= i < |rows| && i != j ==> rows[i].userID != row.userID
    ensures Holds(ix.(byID := ix.byID[row.userID := row]), rows[j := row])
  {
    forall id | id in ix.byID && id != row.userID ensures ix.byID[id] in rows[j := row] {
      var i :| 0 <= i < |rows| && rows[i] == ix.byID[id];
      assert rows[j := row][i] == rows[i];
    }
    assert rows[j := row][j] == row;
  }

  lemma OthersDiffer(ix: Index, t: Table, j: nat)
    requires Matches(ix, t) && j < |t.rows|
    ensures forall i :: 0 <= i < |t.rows| && i != j ==>
              t.rows[i].userID != t.rows[j].userID && t.rows[i].username != t.rows[j].username
  {
    RowsAreUnique(ix, t);
    hide Matches;
    forall i | 0 <= i < |t.rows| && i != j ensures t.rows[i].userID != t.rows[j].userID && t.rows[i].username != t.rows[j].username {
      assert UserIDOf(t.rows[i]) != UserIDOf(t.rows[j]) && NameOf(t.rows[i]) != NameOf(t.rows[j]);
    }
  }

  lemma {:induction false} UpdateMatches(ix: Index, t: Table, id: ID, p: UserPatch)
    requires Matches(ix, t)
    ensures Matches(Update(ix, id, p), Change(t, id, p))
  {
    LookupsAgree(ix, t, id, "");
    var j := S.Find(t.rows, UserIDOf, id);
    var ix', t' := Update(ix, id, p), Change(t, id, p);
    hide S.Find, Holds, InOrder;
    if j < |t.rows| {
      assert ix.byID[id] == t.rows[j] && t.rows[j].userID == id;
      OthersDiffer(ix, t, j);
      HoldsPatched(ix, t.rows, j, Patched(t.rows[j], p));
      PatchInOrder(t, j, p);
      assert DrawnBefore(ix');
      hide DrawnBefore, Patched;
    }
  }

  lemma PatchInOrder(t: Table, j: nat, p: UserPatch)
    requires InOrder(t) && j < |t.rows|
    ensures InOrder(t.(rows := t.rows[j := Patched(t.rows[j], p)]))
  {
  }

  lemma {:induction false} WithoutRow(rows: seq<User>, j: nat)
    requires j < |rows|
    ensures var rest := rows[..j] + rows[j + 1..];
            && (forall i :: 0 <= i < |rest| ==> rest[i] == rows[if i < j then i else i + 1])
            && (forall x :: x in rows && x != rows[j] ==> x in rest)
  {
    var rest := rows[..j] + rows[j + 1..];
    forall x | x in rows && x != rows[j] ensures x in rest {
      var i :| 0 <= i < |rows| && rows[i] == x;
      assert rest[if i < j then i else i - 1] == rows[i];
    }
  }

  lemma {:induction false} HoldsFewer(ix: Index, rows: seq<User>, j: nat)
    requires Holds(ix, rows) && j < |rows|
    requires forall i :: 0 <= i < |rows| && i != j ==> rows[i].userID != rows[j].userID && rows[i].username != rows[j].username
    ensures Holds(ix.(byName := ix.byName - {rows[j].username}, byID := ix.byID - {rows[j].userID}), rows[..j] + rows[j + 1..])
  {
    WithoutRow(rows, j);
  }

  lemma RemoveInOrder(t: Table, j: nat)
    requires InOrder(t) && j < |t.rows|
    ensures InOrder(t.(rows := t.rows[..j] + t.rows[j + 1..]))
  {
    WithoutRow(t.rows, j);
  }

  lemma {:induction false} DeleteMatches(ix: Index, t: Table, id: ID)
    requires Matches(ix, t)
    ensures Matches(Delete(ix, id), Remove(t, id))
  {
    LookupsAgree(ix, t, id, "");
    var j := S.Find(t.rows, UserIDOf, id);
    var ix', t' := Delete(ix, id), Remove(t, id);
    hide S.Find, Holds, InOrder;
    if j < |t.rows| {
      assert ix.byID[id] == t.rows[j] && t.rows[j].userID == id;
      OthersDiffer(ix, t, j);
      HoldsFewer(ix, t.rows, j);
      RemoveInOrder(t, j);
      assert DrawnBefore(ix');
      hide DrawnBefore;
    }
  }

  /** No creation along the way supplies an identifier a stored user has. */
  ghost predicate FreshRun(ops: seq<Op>) {
    forall k :: 0 <= k < |ops| && ops[k].Created? ==> Fresh(DoAll(NO_USERS, ops[..k]), ops[k].u)
  }

  /** Over every run that reuses no identifier the maps are exactly the table. */
  lemma {:induction false} RunMatchesTable(ops: seq<Op>)
    requires FreshRun(ops)
    ensures Matches(DoAll(NO_USERS, ops), PerformAll(Table([], 0, 0), ops))
  {
    if ops != [] {
      var n := |ops| - 1;
      forall k | 0 <= k < n && ops[..n][k].Created? ensures Fresh(DoAll(NO_USERS, ops[..n][..k]), ops[..n][k].u) {
        assert ops[..n][..k] == ops[..k];
      }
      RunMatchesTable(ops[..n]);
      var ix, t := DoAll(NO_USERS, ops[..n]), PerformAll(Table([], 0, 0), ops[..n]);
      hide Matches, Create, Update, Delete, Insert, Change, Remove;
      match ops[n]
      case Created(u) => CreateMatches(ix, t, u);
      case Updated(id, p) => UpdateMatches(ix, t, id, p);
      case Deleted(id) => DeleteMatches(ix, t, id);
    }
  }

  // ------------------------------------------------------------------ the listing

  ghost predicate InIDOrder(rows: seq<User>) { forall i, j :: 0 <= i < j < |rows| ==> rows[i].id < rows[j].id }

  function PlaceUser(rows: seq<User>, u: User): seq<User> {
    if rows == [] then [u]
    else if rows[|rows| - 1].id <= u.id then rows + [u]
    else PlaceUser(rows[..|rows| - 1], u) + [rows[|rows| - 1]]
  }

  lemma {:induction false} PlacedUser(rows: seq<User>, u: User)
    requires InIDOrder(rows) && forall i :: 0 <= i < |rows| ==> rows[i].id != u.id
    ensures InIDOrder(PlaceUser(rows, u))
    ensures forall x :: x in PlaceUser(rows, u) <==> x in rows || x == u
  {
    if rows != [] && rows[|rows| - 1].id > u.id {
      var rest, last := rows[..|rows| - 1], rows[|rows| - 1];
      PlacedUser(rest, u);
      assert rows == rest + [last];
      var placed := PlaceUser(rest, u);
      forall i | 0 <= i < |placed| ensures placed[i].id < last.id { assert placed[i] in rest || placed[i] == u; }
    }
  }

  ghost predicate Among(s: seq<User>, t: seq<User>) { forall x :: x in s ==> x in t }

  lemma NonEmptyAmong(s: seq<User>, t: seq<User>)
    requires Among(s, t)
    ensures s != [] ==> t != []
  {
    if s != [] { assert s[0] in s; }
  }

  lemma {:induction false} AmongFront(s: seq<User>, t: seq<User>)
    requires s != [] && t != [] && Among(s, t) && InIDOrder(s) && s[|s| - 1] == t[|t| - 1]
    ensures Among(s[..|s| - 1], t[..|t| - 1])
  {
    var front, last := t[..|t| - 1], t[|t| - 1];
    assert t == front + [last];
    forall i | 0 <= i < |s| - 1 ensures s[i] in front {
      assert s[i] in s && s[i].id < s[|s| - 1].id;
    }
  }

  lemma {:induction false} SameInOrder(s: seq<User>, t: seq<User>)
    requires InIDOrder(s) && InIDOrder(t) && Among(s, t) && Among(t, s)
    ensures s == t
  {
    NonEmptyAmong(s, t);
    NonEmptyAmong(t, s);
    if s != [] {
      assert s[|s| - 1] in t && t[|t| - 1] in s;
      AmongFront(s, t);
      AmongFront(t, s);
      SameInOrder(s[..|s| - 1], t[..|t| - 1]);
      assert s == s[..|s| - 1] + [s[|s| - 1]] && t == t[..|t| - 1] + [t[|t| - 1]];
    }
  }

  /** A listing of the map in the order of row numbers is the table. */
  lemma {:induction false} ListingIsTable(ix: Index, t: Table, out: seq<User>)
    requires Matches(ix, t) && InIDOrder(out)
    requires forall u :: u in out <==> u.userID in ix.byID && ix.byID[u.userID] == u
    ensures out == t.rows
  {
    forall i | 0 <= i < |t.rows| ensures t.rows[i] in out {}
    SameInOrder(out, t.rows);
  }

  class UserStore {
    var usersByID: map<ID, User>
    var usersByUsername: map<string, ID>
    var userSeq: nat
    var draws: nat

    ghost function Model(): Index
      reads this
    {
      Index(usersByID, usersByUsername, userSeq, draws)
    }

    /** Users are under their own identifier, with row numbers of their own. */
    ghost predicate Valid()
      reads this
    {
      && NamesPointBack(Model())
      && (forall id :: id in usersByID ==> usersByID[id].id <= userSeq)
      && (forall id, id' :: id in usersByID && id' in usersByID && id != id' ==> usersByID[id].id != usersByID[id'].id)
    }

    constructor ()
      ensures Valid() && Model() == NO_USERS
    {
      usersByID, usersByUsername, userSeq, draws := map[], map[], 0, 0;
    }

    method CreateUser(u: User) returns (row: User, ok: bool)
      requires Valid()
      modifies this
      ensures Valid() && Model() == Create(old(Model()), u) && (ok <==> u.username !in old(usersByUsername))
      ensures ok ==> row == NewUser(u, old(userSeq), old(draws))
    {
      row := u;
      if u.username in usersByUsername { return row, false; }
      userSeq := userSeq + 1;
      if u.userID == NO_ID {
        row := row.(userID := Drawn(draws));
        draws := draws + 1;
      }
      row := row.(id := userSeq, active := true, role := if row.role == "" then "user" else row.role);
      usersByID := usersByID[row.userID := row];
      usersByUsername := usersByUsername[u.username := row.userID];
      ok := true;
    }

    method GetUserByUsername(username: string) returns (u: Option<User>)
      ensures u == ByName(Model(), username)
    {
      if username !in usersByUsername { return None; }
      var id := usersByUsername[username];
      u := if id in usersByID then Some(usersByID[id]) else None;
    }

    method GetUser(userID: ID) returns (u: Option<User>)
      ensures u == ByID(Model(), userID)
    {
      u := if userID in usersByID then Some(usersByID[userID]) else None;
    }

    method UpdateUser(userID: ID, patch: UserPatch) returns (row: Option<User>)
      requires Valid()
      modifies this`usersByID
      ensures Valid() && Model() == Update(old(Model()), userID, patch) && row == ByID(Model(), userID)
    {
      if userID !in usersByID { return None; }
      var u := usersByID[userID];
      u := u.(nickname := S.OrElse(patch.nickname, u.nickname), email := S.OrElse(patch.email, u.email));
      u := u.(phone := S.OrElse(patch.phone, u.phone), role := S.OrElse(patch.role, u.role));
      u := u.(active := S.OrElse(patch.active, u.active), password := S.OrElse(patch.password, u.password));
      usersByID := usersByID[userID := u];
      row := Some(u);
    }

    method DeleteUser(userID: ID) returns (ok: bool)
      requires Valid()
      modifies this`usersByID, this`usersByUsername
      ensures Valid() && Model() == Delete(old(Model()), userID) && ok == (userID in old(usersByID))
    {
      if userID !in usersByID { return false; }
      usersByUsername := usersByUsername - {usersByID[userID].username};
      usersByID := usersByID - {userID};
      ok := true;
    }

    /** Collects the users in any map order and sorts them by row number. */
    method ListUsers() returns (out: seq<User>)
      requires Valid()
      ensures InIDOrder(out) && forall u :: u in out <==> u.userID in usersByID && usersByID[u.userID] == u
    {
      out := [];
      var todo := usersByID.Keys;
      while todo != {}
        invariant todo <= usersByID.Keys && InIDOrder(out)
        invariant forall u :: u in out <==> u.userID in usersByID.Keys - todo && usersByID[u.userID] == u
      {
        var id :| id in todo;
        todo := todo - {id};
        PlacedUser(out, usersByID[id]);
        out := PlaceUser(out, usersByID[id]);
      }
    }
  }
}
