/** What each account operation changes, and who may have it done, row by row and
    field by field. */
module IdentityLaws {
  import opened Identity
  import opened IdentityTheorems

  // ------------------------------------------------------------------ frames

  /** Nothing but row id and its sessions: the sessions are gone, the other rows and
      sessions are as before. */
  ghost predicate OnlyRow(db: Db, d: Db, id: nat) {
    && id in db.users && d.next == db.next && d.users.Keys == db.users.Keys
    && (forall i :: i in db.users && i != id ==> d.users[i] == db.users[i])
    && (forall t :: t in d.sessions <==> t in db.sessions && db.sessions[t].user != id)
    && (forall t :: t in d.sessions ==> d.sessions[t] == db.sessions[t])
  }

  /** A new row at the next id, and nothing else. */
  ghost predicate NewRow(db: Db, d: Db, name: string, hash: string, role: Role, temporary: bool) {
    && d.next == db.next + 1 && d.sessions == db.sessions
    && d.users.Keys == db.users.Keys + {db.next}
    && (forall i :: i in db.users && i != db.next ==> d.users[i] == db.users[i])
    && var row := d.users[db.next];
       row.name == name && row.hash == hash && row.role == role && row.temporary == temporary
       && row.status.Active? && row.version == 0
  }

  /** A signed-in administrator whose handle is current, or the recovery entry. */
  predicate Accepted(db: Db, actor: Actor) {
    actor.recovery
    || (&& actor.id in db.users
        && db.users[actor.id].role != User && db.users[actor.id].status == Active
        && !db.users[actor.id].temporary && db.users[actor.id].version == actor.version)
  }

  /** ... who is the owner, or the recovery entry. */
  predicate AcceptedOwner(db: Db, actor: Actor) {
    Accepted(db, actor) && (actor.recovery || db.users[actor.id].role == Owner)
  }

  // ---------------------------------------------------------------- managing

  /** Who may manage whom: everything that has to hold for a change to go through. */
  predicate MayChange(db: Db, actor: Actor, id: nat, change: Change) {
    && Accepted(db, actor) && id in db.users
    && (actor.recovery || actor.id != id)
    && (db.users[id].role == Admin ==> AcceptedOwner(db, actor))
    && (db.users[id].role == Owner ==> actor.recovery && change.ToPassword?)
    && match change
       case ToRole(role) => AcceptedOwner(db, actor) && role != Owner && role != db.users[id].role
       case ToStatus(status) => status != db.users[id].status
       case ToPassword(hash) => hash != ""
       case Unsupported => false
  }

  lemma ManageChangesIff(db: Db, actor: Actor, id: nat, change: Change)
    ensures ManageIdentity(db, actor, id, change).1.Changed? <==> MayChange(db, actor, id, change)
  {
  }

  /** What a managed change changes: the one field named (a reset password is
      temporary), the version by one, the sessions of the account, and one audit
      entry that names the actor, the account and what was done. */
  lemma ManageChangesOneField(db: Db, actor: Actor, id: nat, change: Change)
    requires ManageIdentity(db, actor, id, change).1.Changed?
    ensures var d := ManageIdentity(db, actor, id, change).0;
      && OnlyRow(db, d, id)
      && var u, v := db.users[id], d.users[id];
         && v.version == u.version + 1 && v.name == u.name
         && v.role == (if change.ToRole? then change.role else u.role)
         && v.status == (if change.ToStatus? then change.status else u.status)
         && v.hash == (if change.ToPassword? then change.hash else u.hash)
         && v.temporary == (change.ToPassword? || u.temporary)
         && d.audit == db.audit + [Entry(actor.id, id, if change.ToRole? then RoleChanged
                                                       else if change.ToStatus? then StatusChanged
                                                       else PasswordReset)]
  {
  }

  /** A transfer: the target alone becomes owner, the old owner an administrator, both
      signed out everywhere under a new version; nobody else is touched. */
  lemma TransferHandsOver(db: Db, actor: Actor, target: nat, claim: bool)
    requires Inv(db) && TransferOwner(db, actor, target, claim).1.Changed?
    ensures var d := TransferOwner(db, actor, target, claim).0;
      && d.next == db.next && d.users.Keys == db.users.Keys && target in db.users
      && d.audit == db.audit + [Entry(actor.id, target, if claim then OwnerClaimed else OwnerMoved)]
      && (forall t :: t in d.sessions <==>
            t in db.sessions && db.sessions[t].user != target && !IsOwner(db, db.sessions[t].user))
      && (forall t :: t in d.sessions ==> d.sessions[t] == db.sessions[t])
      && (forall i :: i in db.users ==>
            d.users[i] ==
              if i == target then db.users[i].(role := Owner, version := db.users[i].version + 1)
              else if db.users[i].role == Owner then db.users[i].(role := Admin, version := db.users[i].version + 1)
              else db.users[i])
  {
    var o := OwnerId(db);
    forall i | i in db.users && db.users[i].role == Owner ensures o == Some(i) {
      assert IsOwner(db, i) && 0 < i < db.next;
    }
    if o.Some? { assert IsOwner(db, o.value); }
  }

  /** Exactly when ownership moves: by the owner or the recovery entry, while there is
      an owner; or by a claim through the recovery entry, while there is none; and
      only to an active administrator whose password is his own. */
  lemma TransferIff(db: Db, actor: Actor, target: nat, claim: bool)
    requires Inv(db)
    ensures TransferOwner(db, actor, target, claim).1.Changed? <==>
      && AcceptedOwner(db, actor)
      && (claim ==> actor.recovery) && (claim <==> !HasOwner(db))
      && target in db.users && db.users[target].role == Admin
      && db.users[target].status == Active && !db.users[target].temporary
    ensures !TransferOwner(db, actor, target, claim).1.Changed? ==>
      TransferOwner(db, actor, target, claim) == (db, Refused)
  {
    var o := OwnerId(db);
    assert HasOwner(db) ==> o.Some? by {
      if HasOwner(db) {
        var i :| i in db.users && db.users[i].role.Owner?;
        assert IsOwner(db, i) && 0 < i < db.next;
      }
    }
    if o.Some? { assert IsOwner(db, o.value) && HasOwner(db); }
    if AcceptedOwner(db, actor) && !actor.recovery {
      assert IsOwner(db, actor.id) && 0 < actor.id < db.next;
    }
  }

  // ---------------------------------------------------------------- creating

  /** Administrators are created by the owner, users by any administrator, owners by
      nobody; a name is given once; the account starts with a temporary password. */
  lemma CreateManagedLaw(db: Db, actor: Actor, name: string, hash: string, role: Role)
    ensures var (d, outcome) := CreateManagedUser(db, actor, name, hash, role);
      && (outcome.Changed? <==>
            && Accepted(db, actor) && role != Owner && (role == Admin ==> AcceptedOwner(db, actor))
            && forall i :: i in db.users ==> db.users[i].name != name)
      && (outcome.Changed? ==> NewRow(db, d, name, hash, role, true)
                               && d.audit == db.audit + [Entry(actor.id, db.next, Created)])
  {
  }

  /** Registration: a free name, and no second owner; the password is the person's own. */
  lemma RegisterLaw(db: Db, name: string, hash: string, role: Role)
    ensures var (d, outcome) := CreateUser(db, name, hash, role);
      && (outcome.Changed? <==>
            forall i :: i in db.users ==> db.users[i].name != name && !(role == Owner == db.users[i].role))
      && (outcome.Changed? ==> NewRow(db, d, name, hash, role, false) && d.audit == db.audit)
      && (!outcome.Changed? ==> d == db)
  {
    assert HasOwner(db) <==> exists i :: i in db.users && db.users[i].role == Owner;
  }

  /** The first administrator is the owner; while there is any administrator nobody is
      made one this way. */
  lemma BootstrapLaw(db: Db, name: string, hash: string)
    ensures var (d, outcome) := CreateInitialAdmin(db, name, hash);
      && (outcome.Changed? <==> forall i :: i in db.users ==> db.users[i].role == User && db.users[i].name != name)
      && (outcome.Changed? ==> NewRow(db, d, name, hash, Owner, false)
                               && d.audit == db.audit + [Entry(0, db.next, Bootstrapped)])
      && (!outcome.Changed? ==> d == db)
  {
  }

  // ------------------------------------------------------- the other operations

  lemma StatusLaw(db: Db, id: nat, status: Status)
    ensures var (d, outcome) := SetUserStatus(db, id, status);
      && (outcome.Changed? <==> id in db.users && db.users[id].role != Owner && db.users[id].status != status)
      && (outcome.Unchanged? <==> id in db.users && db.users[id].role != Owner && db.users[id].status == status)
      && (outcome.Changed? ==>
            && OnlyRow(db, d, id) && d.audit == db.audit
            && d.users[id] == db.users[id].(status := status, version := db.users[id].version + 1))
      && (!outcome.Changed? ==> d == db)
  {
  }

  /** A password is the person's own from then on; without an expected hash nothing
      else is asked for, with one it must still be the password of an active account. */
  lemma PasswordLaw(db: Db, id: nat, hash: string, expected: Option<string>)
    ensures var (d, outcome) := UpdateUserPassword(db, id, hash, expected);
      && (outcome.Changed? <==>
            id in db.users
            && (expected == None || (expected == Some(db.users[id].hash) && db.users[id].status == Active)))
      && (outcome.Changed? ==>
            && OnlyRow(db, d, id)
            && d.users[id] ==
                 db.users[id].(hash := hash, temporary := false, version := db.users[id].version + 1)
            && d.audit == db.audit + (if expected == None then [] else [Entry(id, id, OwnPassword)]))
      && (!outcome.Changed? ==> d == db)
  {
  }

  lemma DeleteLaw(db: Db, id: nat)
    ensures var (d, outcome) := DeleteUserHard(db, id);
      && (outcome.Changed? <==> id in db.users && db.users[id].role == User)
      && (outcome.Changed? ==>
            && d.users == db.users - {id} && d.next == db.next && d.audit == db.audit
            && (forall t :: t in d.sessions <==> t in db.sessions && db.sessions[t].user != id)
            && (forall t :: t in d.sessions ==> d.sessions[t] == db.sessions[t]))
      && (!outcome.Changed? ==> d == db)
  {
  }

  /** A login needs a new token, an active account, and the password and the version
      that were verified; it is valid at once, and touches nothing else. */
  lemma LoginLaw(db: Db, token: string, id: nat, verified: string, version: Option<nat>)
    ensures var (d, outcome) := CreateUserSession(db, token, id, verified, version);
      && (outcome.Changed? <==>
            && token !in db.sessions && id in db.users && db.users[id].status == Active
            && (verified == "" || verified == db.users[id].hash)
            && (version == None || version == Some(db.users[id].version)))
      && (outcome.Changed? ==>
            && d == db.(sessions := d.sessions) && ValidSession(d, token) && d.sessions[token].user == id
            && d.sessions.Keys == db.sessions.Keys + {token}
            && forall t :: t in db.sessions ==> d.sessions[t] == db.sessions[t])
      && (!outcome.Changed? ==> d == db)
  {
  }

  /** A session is looked up by its token, its user and that user's version. */
  lemma SessionLaw(db: Db, token: string)
    ensures ValidSession(db, token) <==>
      exists id, version :: token in db.sessions && db.sessions[token] == Session(id, version)
                            && id in db.users && db.users[id].version == version
  {
    if token in db.sessions {
      assert db.sessions[token] == Session(db.sessions[token].user, db.sessions[token].version);
    }
  }

  // ------------------------------------------------------------ consequences

  /** No login by this id succeeds, whatever was verified. */
  ghost predicate NeverSignsIn(db: Db, id: nat) {
    forall token, verified, version :: CreateUserSession(db, token, id, verified, version) == (db, Refused)
  }

  /** No handle for this id is accepted. */
  ghost predicate NotAccepted(db: Db, id: nat) {
    forall version :: ActorRole(db, Actor(id, version, false)) == None
  }

  /** Nobody can hand the ownership to this id. */
  ghost predicate NeverOwner(db: Db, id: nat) {
    forall actor, claim :: TransferOwner(db, actor, id, claim) == (db, Refused)
  }

  /** The account is removed or disabled. */
  predicate Out(db: Db, id: nat) { id in db.users ==> db.users[id].status == Disabled }

  predicate Enables(op: Op, id: nat) {
    || (op.OpManage? && op.id == id && op.change == ToStatus(Active))
    || (op.OpStatus? && op.id == id && op.status == Active)
  }

  lemma StepOut(db: Db, op: Op, id: nat)
    requires Inv(db) && id < db.next && Out(db, id) && !Enables(op, id)
    ensures Out(Apply(db, op).0, id)
  {
    match op
    case OpManage(actor, i, change) =>
      if ManageIdentity(db, actor, i, change).1.Changed? { ManageChangesOneField(db, actor, i, change); }
      hide ManageIdentity;
      EveryChangeIsAudited(db, op);
    case OpTransfer(actor, target, claim) =>
      if TransferOwner(db, actor, target, claim).1.Changed? { TransferHandsOver(db, actor, target, claim); }
      TransferIff(db, actor, target, claim);
    case _ =>
  }

  /** Once an account is disabled, through whatever happens but an operation that
      enables it again: nobody signs in with it and no operation accepts it. */
  lemma {:induction false} DisabledStaysOut(db: Db, attempts: seq<Attempt>, id: nat)
    requires Inv(db) && id < db.next && Out(db, id)
    requires forall i :: 0 <= i < |attempts| ==> !Enables(attempts[i].op, id)
    ensures NeverSignsIn(Run(db, attempts), id) && NotAccepted(Run(db, attempts), id)
    decreases |attempts|
  {
    if |attempts| == 0 {
      assert NotAccepted(db, id);
    } else {
      StepOut(db, attempts[0].op, id);
      ApplyInv(db, attempts[0].op);
      ApplyEvolves(db, attempts[0].op);
      hide Inv, Apply;
      DisabledStaysOut(Step(db, attempts[0]), attempts[1..], id);
    }
  }

  /** The account is removed or its password is not the person's own. */
  predicate Temporary(db: Db, id: nat) { id in db.users ==> db.users[id].temporary }

  lemma StepTemporary(db: Db, op: Op, id: nat)
    requires Inv(db) && id < db.next && Temporary(db, id) && !(op.OpPassword? && op.id == id)
    ensures Temporary(Apply(db, op).0, id)
  {
    match op
    case OpManage(actor, i, change) =>
      if ManageIdentity(db, actor, i, change).1.Changed? { ManageChangesOneField(db, actor, i, change); }
      hide ManageIdentity;
      EveryChangeIsAudited(db, op);
    case OpTransfer(actor, target, claim) =>
      if TransferOwner(db, actor, target, claim).1.Changed? { TransferHandsOver(db, actor, target, claim); }
      TransferIff(db, actor, target, claim);
    case _ =>
  }

  /** After a reset, and from its creation by an administrator, an account is accepted
      by no operation and becomes no owner until its password is set anew. */
  lemma {:induction false} TemporaryMayNotAct(db: Db, attempts: seq<Attempt>, id: nat)
    requires Inv(db) && id < db.next && Temporary(db, id)
    requires forall i :: 0 <= i < |attempts| ==> !(attempts[i].op.OpPassword? && attempts[i].op.id == id)
    ensures NotAccepted(Run(db, attempts), id) && NeverOwner(Run(db, attempts), id)
    decreases |attempts|
  {
    if |attempts| == 0 {
      assert NotAccepted(db, id);
    } else {
      StepTemporary(db, attempts[0].op, id);
      ApplyInv(db, attempts[0].op);
      ApplyEvolves(db, attempts[0].op);
      hide Inv, Apply;
      TemporaryMayNotAct(Step(db, attempts[0]), attempts[1..], id);
    }
  }

  /** Managing disables, and resets, in one go with signing out. */
  lemma ManagedAccountIsSignedOut(db: Db, actor: Actor, id: nat, change: Change, token: string)
    requires ManageIdentity(db, actor, id, change).1.Changed?
    ensures var d := ManageIdentity(db, actor, id, change).0;
      && (change == ToStatus(Disabled) ==> Out(d, id))
      && (change.ToPassword? ==> Temporary(d, id))
      && (token in d.sessions ==> d.sessions[token].user != id)
  {
    ManageChangesOneField(db, actor, id, change);
  }
}
