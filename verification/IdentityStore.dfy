/** The account store as an object: each operation reads and rewrites rows inside
    one transaction and publishes them on commit. */
module IdentityStore {
  import opened Identity

  class Store {
    var users: map<nat, Account>
    var next: nat
    var sessions: map<string, Session>
    var audit: seq<Entry>

    ghost function View(): Db
      reads this
    {
      Db(users, next, sessions, audit)
    }

    constructor ()
      ensures View() == EMPTY
    {
      users, next, sessions, audit := map[], 1, map[], [];
    }

    method ReadActor(actor: Actor) returns (role: Option<Role>)
      ensures role == ActorRole(View(), actor)
    {
      if actor.recovery {
        return Some(Owner);
      }
      if actor.id !in users {
        return None;
      }
      var u := users[actor.id];
      if u.status != Active || !IsAdminRole(u.role) || u.version != actor.version || u.temporary {
        return None;
      }
      role := Some(u.role);
    }

    /** invalidateIdentity, on the rows of the running transaction. */
    method Invalidate(rows: map<nat, Account>, live: map<string, Session>, id: nat)
      returns (rows': map<nat, Account>, live': map<string, Session>)
      requires id in rows
      ensures rows' == rows[id := rows[id].(version := rows[id].version + 1)]
      ensures live' == WithoutSessions(live, id)
    {
      rows' := rows[id := rows[id].(version := rows[id].version + 1)];
      live' := map t | t in live && live[t].user != id :: live[t];
    }

    method CreateManagedUser(actor: Actor, name: string, hash: string, role: Role, commits: bool)
      returns (id: nat, outcome: Outcome)
      modifies this
      ensures View() == if commits then Identity.CreateManagedUser(old(View()), actor, name, hash, role).0
          else old(View())
      ensures commits ==> outcome == Identity.CreateManagedUser(old(View()), actor, name, hash, role).1
      ensures outcome.Changed? ==> id == old(next) && id in users
    {
      id, outcome := 0, Refused;
      if role != User && role != Admin {
        return;
      }
      var actorRole := ReadActor(actor);
      if actorRole.None? || (role == Admin && actorRole != Some(Owner)) {
        return;
      }
      if exists i :: i in users && users[i].name == name {
        return;
      }
      if commits {
        id, outcome := next, Changed;
        users, next := users[next := Account(name, hash, role, Active, 0, true)], next + 1;
        audit := audit + [Entry(actor.id, id, Created)];
      }
    }

    method CreateUser(name: string, hash: string, role: Role, commits: bool) returns (outcome: Outcome)
      modifies this
      ensures View() == if commits then Identity.CreateUser(old(View()), name, hash, role).0 else old(View())
      ensures commits ==> outcome == Identity.CreateUser(old(View()), name, hash, role).1
    {
      outcome := Refused;
      var taken := exists i :: i in users && users[i].name == name;
      var owned := exists i :: i in users && users[i].role == Owner;
      if commits && !taken && (role != Owner || !owned) {
        users, next := users[next := Account(name, hash, role, Active, 0, false)], next + 1;
        outcome := Changed;
      }
    }

    /** The first administrator is the owner; any administrator closes this path. */
    method CreateInitialAdmin(name: string, hash: string, commits: bool) returns (outcome: Outcome)
      modifies this
      ensures View() == if commits then Identity.CreateInitialAdmin(old(View()), name, hash).0 else old(View())
      ensures commits ==> outcome == Identity.CreateInitialAdmin(old(View()), name, hash).1
    {
      outcome := Refused;
      var administered := exists i :: i in users && IsAdminRole(users[i].role);
      var taken := exists i :: i in users && users[i].name == name;
      if commits && !administered && !taken {
        audit := audit + [Entry(0, next, Bootstrapped)];
        users, next := users[next := Account(name, hash, Owner, Active, 0, false)], next + 1;
        outcome := Changed;
      }
    }

    method ManageIdentity(actor: Actor, id: nat, change: Change, commits: bool) returns (outcome: Outcome)
      modifies this
      ensures View() == if commits then Identity.ManageIdentity(old(View()), actor, id, change).0 else old(View())
      ensures commits ==> outcome == Identity.ManageIdentity(old(View()), actor, id, change).1
    {
      outcome := Refused;
      var actorRole := ReadActor(actor);
      if actorRole.None? || id !in users {
        return;
      }
      var row := users[id];
      if row.role == Owner && !(actor.recovery && change.ToPassword?) {
        return;
      }
      if actorRole != Some(Owner) && row.role != User {
        return;
      }
      if actor.id == id && !actor.recovery {
        return;
      }
      var rows, event := users, PasswordReset;
      match change {
        case ToRole(role) =>
          if actorRole != Some(Owner) || role == Owner {
            return;
          }
          if row.role == role {
            return Unchanged;
          }
          rows, event := rows[id := row.(role := role)], RoleChanged;
        case ToStatus(status) =>
          if row.status == status {
            return Unchanged;
          }
          rows, event := rows[id := row.(status := status)], StatusChanged;
        case ToPassword(hash) =>
          if hash == "" {
            return;
          }
          rows := rows[id := row.(hash := hash, temporary := true)];
        case Unsupported =>
          return;
      }
      var live;
      rows, live := Invalidate(rows, sessions, id);
      if commits {
        users, sessions, audit, outcome := rows, live, audit + [Entry(actor.id, id, event)], Changed;
      }
    }

    /** SELECT id FROM users WHERE role='owner'. */
    method FindOwner() returns (owner: Option<nat>)
      ensures owner == OwnerId(View())
    {
      var id := 0;
      while id < next
        invariant OwnerId(View()) == OwnerFrom(View(), id)
      {
        if id in users && users[id].role == Owner {
          return Some(id);
        }
        id := id + 1;
      }
      owner := None;
    }

    /** The rows after the old owner, if any, is demoted and the target promoted. */
    method HandOver(owner: Option<nat>, target: nat) returns (rows: map<nat, Account>, live: map<string, Session>)
      requires owner == OwnerId(View()) && target in users && owner != Some(target)
      ensures var d := Demoted(View());
              target in d.users
              && View().(users := rows, sessions := live) == Updated(d, target, d.users[target].(role := Owner))
    {
      rows, live := users, sessions;
      if owner.Some? {
        rows := rows[owner.value := rows[owner.value].(role := Admin)];
        rows, live := Invalidate(rows, live, owner.value);
      }
      rows := rows[target := rows[target].(role := Owner)];
      rows, live := Invalidate(rows, live, target);
    }

    method TransferOwner(actor: Actor, target: nat, claim: bool, commits: bool) returns (outcome: Outcome)
      modifies this
      ensures View() == if commits then Identity.TransferOwner(old(View()), actor, target, claim).0 else old(View())
      ensures commits ==> outcome == Identity.TransferOwner(old(View()), actor, target, claim).1
    {
      outcome := Refused;
      var role := ReadActor(actor);
      if role != Some(Owner) {
        return;
      }
      var owner := FindOwner();
      if claim {
        if !actor.recovery || owner.Some? {
          return;
        }
      } else if owner.None? || (!actor.recovery && owner.value != actor.id) {
        return;
      }
      if owner == Some(target) || target !in users {
        return;
      }
      if users[target].role != Admin || users[target].status != Active || users[target].temporary {
        return;
      }
      var rows, live := HandOver(owner, target);
      hide Demoted, Updated;
      if commits {
        users, sessions, outcome := rows, live, Changed;
        audit := audit + [Entry(actor.id, target, if claim then OwnerClaimed else OwnerMoved)];
      }
    }

    method SetUserStatus(id: nat, status: Status, commits: bool) returns (outcome: Outcome)
      modifies this
      ensures View() == if commits then Identity.SetUserStatus(old(View()), id, status).0 else old(View())
      ensures commits ==> outcome == Identity.SetUserStatus(old(View()), id, status).1
    {
      outcome := Refused;
      if id !in users || users[id].role == Owner {
        return;
      }
      if users[id].status == status {
        return Unchanged;
      }
      var rows, live := Invalidate(users[id := users[id].(status := status)], sessions, id);
      if commits {
        users, sessions, outcome := rows, live, Changed;
      }
    }

    method UpdateUserPassword(id: nat, hash: string, expected: Option<string>, commits: bool) returns (outcome: Outcome)
      modifies this
      ensures View() == if commits then Identity.UpdateUserPassword(old(View()), id, hash, expected).0 else old(View())
      ensures commits ==> outcome == Identity.UpdateUserPassword(old(View()), id, hash, expected).1
    {
      outcome := Refused;
      if id !in users {
        return;
      }
      if expected.Some? && (users[id].hash != expected.value || users[id].status != Active) {
        return;
      }
      var rows, live := Invalidate(users[id := users[id].(hash := hash, temporary := false)], sessions, id);
      if commits {
        users, sessions, outcome := rows, live, Changed;
        if expected.Some? {
          audit := audit + [Entry(id, id, OwnPassword)];
        }
      }
    }

    method DeleteUserHard(id: nat, commits: bool) returns (outcome: Outcome)
      modifies this
      ensures View() == if commits then Identity.DeleteUserHard(old(View()), id).0 else old(View())
      ensures commits ==> outcome == Identity.DeleteUserHard(old(View()), id).1
    {
      outcome := Refused;
      if commits && id in users && users[id].role == User {
        users := users - {id};
        sessions := map t | t in sessions && sessions[t].user != id :: sessions[t];
        outcome := Changed;
      }
    }

    method CreateUserSession(token: string, id: nat, expected: string, version: Option<nat>, commits: bool)
      returns (outcome: Outcome)
      modifies this
      ensures View() == if commits then Identity.CreateUserSession(old(View()), token, id, expected, version).0
          else old(View())
      ensures commits ==> outcome == Identity.CreateUserSession(old(View()), token, id, expected, version).1
    {
      outcome := Refused;
      if token in sessions || id !in users || users[id].status != Active {
        return;
      }
      if (expected != "" && users[id].hash != expected) || (version.Some? && version.value != users[id].version) {
        return;
      }
      if commits {
        sessions, outcome := sessions[token := Session(id, users[id].version)], Changed;
      }
    }
  }
}
