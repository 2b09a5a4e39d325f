/** Accounts, ownership and credential epochs of internal/store/store_identity.go
    and the account writes of internal/store/store_portal.go.  Every operation is
    one transaction: it is refused, changes nothing, or commits as a whole. */
module Identity {

  datatype Option<+T> = None | Some(value: T)

  datatype Role = User | Admin | Owner

  datatype Status = Active | Disabled

  datatype Account = Account(
    name: string, hash: string, role: Role, status: Status, version: nat, temporary: bool)

  /** A row of user_sessions: valid while its version is the account's. */
  datatype Session = Session(user: nat, version: nat)

  datatype Event = Created | RoleChanged | StatusChanged | PasswordReset | OwnerMoved | OwnerClaimed
                 | OwnPassword | Bootstrapped

  datatype Entry = Entry(actor: nat, target: nat, event: Event)

  /** `next` is the AUTOINCREMENT counter: ids start at 1 and are never reused. */
  datatype Db = Db(users: map<nat, Account>, next: nat, sessions: map<string, Session>, audit: seq<Entry>)

  const EMPTY := Db(map[], 1, map[], [])

  /** What server authentication hands to a write; recovery stands above all. */
  datatype Actor = Actor(id: nat, version: nat, recovery: bool)

  datatype Change = ToRole(role: Role) | ToStatus(status: Status) | ToPassword(hash: string) | Unsupported

  datatype Outcome = Changed | Unchanged | Refused

  predicate IsAdminRole(r: Role) { r.Admin? || r.Owner? }

  /** identityActor: role, status and version are looked up again. */
  function ActorRole(db: Db, actor: Actor): Option<Role> {
    if actor.recovery then Some(Owner)
    else if actor.id !in db.users then None
    else
      var u := db.users[actor.id];
      if u.status.Active? && IsAdminRole(u.role) && u.version == actor.version && !u.temporary
      then Some(u.role) else None
  }

  predicate NameTaken(db: Db, name: string) { exists id :: id in db.users && db.users[id].name == name }

  predicate HasOwner(db: Db) { exists id :: id in db.users && db.users[id].role.Owner? }

  predicate HasAdmin(db: Db) { exists id :: id in db.users && IsAdminRole(db.users[id].role) }

  /** The unique partial index on role='owner' and the unique username. */
  predicate MayInsert(db: Db, account: Account) {
    !NameTaken(db, account.name) && (account.role.Owner? ==> !HasOwner(db))
  }

  function Inserted(db: Db, account: Account): Db { db.(users := db.users[db.next := account], next := db.next + 1) }

  function WithoutSessions(sessions: map<string, Session>, id: nat): map<string, Session> {
    map t | t in sessions && sessions[t].user != id :: sessions[t]
  }

  /** An UPDATE of one row together with invalidateIdentity. */
  function Updated(db: Db, id: nat, account: Account): Db
    requires id in db.users
  {
    db.(users := db.users[id := account.(version := db.users[id].version + 1)],
        sessions := WithoutSessions(db.sessions, id))
  }

  function Audited(db: Db, actor: Actor, target: nat, event: Event): Db {
    db.(audit := db.audit + [Entry(actor.id, target, event)])
  }

  function CreateManagedUser(db: Db, actor: Actor, name: string, hash: string, role: Role): (Db, Outcome) {
    if role.Owner? then (db, Refused)
    else if ActorRole(db, actor).None? then (db, Refused)
    else if role.Admin? && ActorRole(db, actor) != Some(Owner) then (db, Refused)
    else if !MayInsert(db, Account(name, hash, role, Active, 0, true)) then (db, Refused)
    else (Audited(Inserted(db, Account(name, hash, role, Active, 0, true)), actor, db.next, Created), Changed)
  }

  /** The guards of ManageIdentity before the action is looked at. */
  predicate MayManage(db: Db, actor: Actor, id: nat, change: Change) {
    && ActorRole(db, actor).Some?
    && id in db.users
    && (db.users[id].role.Owner? ==> actor.recovery && change.ToPassword?)
    && (ActorRole(db, actor) != Some(Owner) ==> db.users[id].role.User?)
    && (actor.id == id ==> actor.recovery)
  }

  function ManageIdentity(db: Db, actor: Actor, id: nat, change: Change): (Db, Outcome) {
    if !MayManage(db, actor, id, change) then (db, Refused)
    else
      var u := db.users[id];
      match change
      case ToRole(role) =>
        if ActorRole(db, actor) != Some(Owner) || role.Owner? then (db, Refused)
        else if u.role == role then (db, Unchanged)
        else (Audited(Updated(db, id, u.(role := role)), actor, id, RoleChanged), Changed)
      case ToStatus(status) =>
        if u.status == status then (db, Unchanged)
        else (Audited(Updated(db, id, u.(status := status)), actor, id, StatusChanged), Changed)
      case ToPassword(hash) =>
        if hash == "" then (db, Refused)
        else (Audited(Updated(db, id, u.(hash := hash, temporary := true)), actor, id, PasswordReset), Changed)
      case Unsupported => (db, Refused)
  }

  predicate IsOwner(db: Db, id: nat) { id in db.users && db.users[id].role.Owner? }

  /** The first owner in id order, from id `from` on. */
  function OwnerFrom(db: Db, from: nat): (r: Option<nat>)
    ensures r.Some? ==> from <= r.value && IsOwner(db, r.value)
    ensures forall id :: from <= id < db.next && IsOwner(db, id) ==> r.Some? && r.value <= id
    decreases db.next - from
  {
    if from >= db.next then None else if IsOwner(db, from) then Some(from) else OwnerFrom(db, from + 1)
  }

  function OwnerId(db: Db): Option<nat> { OwnerFrom(db, 0) }

  /** The guards of TransferOwner. */
  predicate MayTransfer(db: Db, actor: Actor, target: nat, claim: bool) {
    && ActorRole(db, actor) == Some(Owner)
    && (if claim then actor.recovery && OwnerId(db).None?
        else OwnerId(db).Some? && (actor.recovery || OwnerId(db) == Some(actor.id)))
    && OwnerId(db) != Some(target)
    && target in db.users
    && db.users[target].role.Admin? && db.users[target].status.Active? && !db.users[target].temporary
  }

  function Demoted(db: Db): Db {
    match OwnerId(db)
    case None => db
    case Some(o) => Updated(db, o, db.users[o].(role := Admin))
  }

  function TransferOwner(db: Db, actor: Actor, target: nat, claim: bool): (Db, Outcome) {
    if !MayTransfer(db, actor, target, claim) then (db, Refused)
    else
      var d := Demoted(db);
      (Audited(Updated(d, target, d.users[target].(role := Owner)), actor, target,
               if claim then OwnerClaimed else OwnerMoved), Changed)
  }

  // ------------------------------------------------------- other account writes

  function CreateUser(db: Db, name: string, hash: string, role: Role): (Db, Outcome) {
    if MayInsert(db, Account(name, hash, role, Active, 0, false))
    then (Inserted(db, Account(name, hash, role, Active, 0, false)), Changed) else (db, Refused)
  }

  function CreateInitialAdmin(db: Db, name: string, hash: string): (Db, Outcome) {
    if HasAdmin(db) || NameTaken(db, name) then (db, Refused)
    else
      (Audited(Inserted(db, Account(name, hash, Owner, Active, 0, false)), Actor(0, 0, true), db.next, Bootstrapped),
       Changed)
  }

  function SetUserStatus(db: Db, id: nat, status: Status): (Db, Outcome) {
    if id !in db.users || db.users[id].role.Owner? then (db, Refused)
    else if db.users[id].status == status then (db, Unchanged)
    else (Updated(db, id, db.users[id].(status := status)), Changed)
  }

  /** With an expected hash this is the self-service change, which needs an active
      account whose password is still the expected one, and is audited. */
  function UpdateUserPassword(db: Db, id: nat, hash: string, expected: Option<string>): (Db, Outcome) {
    if id !in db.users then (db, Refused)
    else
      var u := db.users[id];
      if expected.Some? && (u.hash != expected.value || u.status != Active) then (db, Refused)
      else
        var d := Updated(db, id, u.(hash := hash, temporary := false));
        (if expected.Some? then Audited(d, Actor(id, u.version, false), id, OwnPassword) else d, Changed)
  }

  /** Only ordinary users; their sessions go with them. */
  function DeleteUserHard(db: Db, id: nat): (Db, Outcome) {
    if id !in db.users || !db.users[id].role.User? then (db, Refused)
    else (db.(users := db.users - {id}, sessions := WithoutSessions(db.sessions, id)), Changed)
  }

  /** createUserSession: an empty expected hash and a missing version match
      anything; the session carries the account's version. A session whose token
      exists already violates the primary key. */
  function CreateUserSession(db: Db, token: string, id: nat, expected: string, version: Option<nat>): (Db, Outcome) {
    if token in db.sessions || id !in db.users then (db, Refused)
    else
      var u := db.users[id];
      if u.status != Active || (expected != "" && u.hash != expected) || (version.Some? && version.value != u.version)
      then (db, Refused)
      else (db.(sessions := db.sessions[token := Session(id, u.version)]), Changed)
  }

  /** Expired sessions and those beyond the limit of a user disappear. */
  function DropSession(db: Db, token: string): Db { db.(sessions := db.sessions - {token}) }

  /** GetUserSession, apart from expiry. */
  predicate ValidSession(db: Db, token: string) {
    token in db.sessions && db.sessions[token].user in db.users
    && db.users[db.sessions[token].user].version == db.sessions[token].version
  }

  // -------------------------------------------------------------------- runs

  datatype Op =
    | OpCreate(actor: Actor, name: string, hash: string, role: Role)
    | OpManage(actor: Actor, id: nat, change: Change)
    | OpTransfer(actor: Actor, target: nat, claim: bool)
    | OpRegister(name: string, hash: string, role: Role)
    | OpBootstrap(name: string, hash: string)
    | OpStatus(id: nat, status: Status)
    | OpPassword(id: nat, hash: string, expected: Option<string>)
    | OpDelete(id: nat)
    | OpLogin(token: string, id: nat, verified: string, version: Option<nat>)
    | OpDropSession(token: string)

  function Apply(db: Db, op: Op): (Db, Outcome) {
    match op
    case OpCreate(actor, name, hash, role) => CreateManagedUser(db, actor, name, hash, role)
    case OpManage(actor, id, change) => ManageIdentity(db, actor, id, change)
    case OpTransfer(actor, target, claim) => TransferOwner(db, actor, target, claim)
    case OpRegister(name, hash, role) => CreateUser(db, name, hash, role)
    case OpBootstrap(name, hash) => CreateInitialAdmin(db, name, hash)
    case OpStatus(id, status) => SetUserStatus(db, id, status)
    case OpPassword(id, hash, expected) => UpdateUserPassword(db, id, hash, expected)
    case OpDelete(id) => DeleteUserHard(db, id)
    case OpLogin(token, id, expected, version) => CreateUserSession(db, token, id, expected, version)
    case OpDropSession(token) => (DropSession(db, token), Changed)
  }

  /** A transaction that does not commit leaves the database as it was. */
  datatype Attempt = Attempt(op: Op, commits: bool)

  function Step(db: Db, a: Attempt): Db { if a.commits then Apply(db, a.op).0 else db }

  function Run(db: Db, attempts: seq<Attempt>): Db
    decreases |attempts|
  {
    if |attempts| == 0 then db else Run(Step(db, attempts[0]), attempts[1..])
  }

  // --------------------------------------------------------------- invariants

  ghost predicate Inv(db: Db) {
    && db.next >= 1
    && (forall id :: id in db.users ==> 0 < id < db.next)
    && (forall i, j :: IsOwner(db, i) && IsOwner(db, j) ==> i == j)
    && (forall id :: IsOwner(db, id) ==> db.users[id].status.Active?)
    && (forall t :: t in db.sessions ==> db.sessions[t].user in db.users)
    && (forall t :: t in db.sessions ==> db.sessions[t].version == db.users[db.sessions[t].user].version)
  }

  lemma EmptyInv()
    ensures Inv(EMPTY)
  {
  }

  /** Replacing one row by a fitting one keeps the invariant. */
  lemma UpdatedInv(db: Db, id: nat, account: Account)
    requires Inv(db) && id in db.users
    requires account.role.Owner? ==> account.status.Active? && forall j :: IsOwner(db, j) ==> j == id
    ensures Inv(Updated(db, id, account))
  {
    var d := Updated(db, id, account);
    forall j ensures IsOwner(d, j) <==> if j == id then account.role.Owner? else IsOwner(db, j) {}
    forall t | t in d.sessions
      ensures d.sessions[t].user in d.users && d.sessions[t].version == d.users[d.sessions[t].user].version
    {
      assert t in db.sessions;
    }
  }

  lemma InsertedInv(db: Db, account: Account)
    requires Inv(db) && MayInsert(db, account) && account.status.Active?
    ensures Inv(Inserted(db, account))
  {
    var d := Inserted(db, account);
    forall j ensures IsOwner(d, j) <==> if j == db.next then account.role.Owner? else IsOwner(db, j) {}
    if account.role.Owner? {
      forall j ensures !IsOwner(db, j) {}
    }
    forall t | t in d.sessions
      ensures d.sessions[t].user in d.users && d.sessions[t].version == d.users[d.sessions[t].user].version
    {
      assert t in db.sessions;
    }
  }

  lemma TransferInv(db: Db, actor: Actor, target: nat, claim: bool)
    requires Inv(db) && MayTransfer(db, actor, target, claim)
    ensures Inv(TransferOwner(db, actor, target, claim).0)
    ensures IsOwner(TransferOwner(db, actor, target, claim).0, target)
  {
    var d := Demoted(db);
    if OwnerId(db).Some? {
      UpdatedInv(db, OwnerId(db).value, db.users[OwnerId(db).value].(role := Admin));
    }
    forall j: nat ensures !IsOwner(d, j) {
      if IsOwner(d, j) {
        assert IsOwner(db, j) && 0 < j < db.next;
      }
    }
    UpdatedInv(d, target, d.users[target].(role := Owner));
    AuditedInv(Updated(d, target, d.users[target].(role := Owner)), actor, target,
               if claim then OwnerClaimed else OwnerMoved);
  }

  lemma AuditedInv(db: Db, actor: Actor, target: nat, event: Event)
    requires Inv(db)
    ensures Inv(Audited(db, actor, target, event))
  {
    assert forall id :: IsOwner(Audited(db, actor, target, event), id) <==> IsOwner(db, id);
  }

  /** Every operation keeps the index, the owner active and the sessions current. */
  lemma ApplyInv(db: Db, op: Op)
    requires Inv(db)
    ensures Inv(Apply(db, op).0)
  {
    match op
    case OpCreate(actor, name, hash, role) =>
      if CreateManagedUser(db, actor, name, hash, role).1.Changed? {
        InsertedInv(db, Account(name, hash, role, Active, 0, true));
        AuditedInv(Inserted(db, Account(name, hash, role, Active, 0, true)), actor, db.next, Created);
      }
    case OpManage(actor, id, change) => ManageInv(db, actor, id, change);
    case OpTransfer(actor, target, claim) =>
      if MayTransfer(db, actor, target, claim) { TransferInv(db, actor, target, claim); }
    case OpRegister(name, hash, role) =>
      if MayInsert(db, Account(name, hash, role, Active, 0, false)) {
        InsertedInv(db, Account(name, hash, role, Active, 0, false));
      }
    case OpBootstrap(name, hash) =>
      if CreateInitialAdmin(db, name, hash).1.Changed? {
        InsertedInv(db, Account(name, hash, Owner, Active, 0, false));
        AuditedInv(Inserted(db, Account(name, hash, Owner, Active, 0, false)), Actor(0, 0, true), db.next,
            Bootstrapped);
      }
    case OpStatus(id, status) =>
      if id in db.users && !db.users[id].role.Owner? { UpdatedInv(db, id, db.users[id].(status := status)); }
    case OpPassword(id, hash, expected) =>
      if id in db.users {
        assert IsOwner(db, id) <==> db.users[id].role.Owner?;
        var u := db.users[id];
        UpdatedInv(db, id, u.(hash := hash, temporary := false));
        AuditedInv(Updated(db, id, u.(hash := hash, temporary := false)), Actor(id, u.version, false), id, OwnPassword);
      }
    case OpDelete(id) => DeleteInv(db, id);
    case OpLogin(token, id, expected, version) => LoginInv(db, token, id, expected, version);
    case OpDropSession(token) => assert forall id :: IsOwner(DropSession(db, token), id) <==> IsOwner(db, id);
  }

  lemma ManageInv(db: Db, actor: Actor, id: nat, change: Change)
    requires Inv(db)
    ensures Inv(ManageIdentity(db, actor, id, change).0)
  {
    if ManageIdentity(db, actor, id, change).1.Changed? {
      var u := db.users[id];
      assert IsOwner(db, id) <==> u.role.Owner?;
      match change
      case ToRole(role) =>
        UpdatedInv(db, id, u.(role := role));
        AuditedInv(Updated(db, id, u.(role := role)), actor, id, RoleChanged);
      case ToStatus(status) =>
        UpdatedInv(db, id, u.(status := status));
        AuditedInv(Updated(db, id, u.(status := status)), actor, id, StatusChanged);
      case ToPassword(hash) =>
        UpdatedInv(db, id, u.(hash := hash, temporary := true));
        AuditedInv(Updated(db, id, u.(hash := hash, temporary := true)), actor, id, PasswordReset);
      case Unsupported =>
    }
  }

  lemma DeleteInv(db: Db, id: nat)
    requires Inv(db)
    ensures Inv(DeleteUserHard(db, id).0)
  {
    var d := DeleteUserHard(db, id).0;
    assert forall j :: IsOwner(d, j) <==> IsOwner(db, j);
  }

  lemma LoginInv(db: Db, token: string, id: nat, expected: string, version: Option<nat>)
    requires Inv(db)
    ensures Inv(CreateUserSession(db, token, id, expected, version).0)
  {
    var d := CreateUserSession(db, token, id, expected, version).0;
    assert forall j :: IsOwner(d, j) <==> IsOwner(db, j);
  }
}
