/** Ownership and credential epochs over every run of the account operations. */
module IdentityTheorems {
  import opened Identity

  lemma {:induction false} RunInv(db: Db, attempts: seq<Attempt>)
    requires Inv(db)
    ensures Inv(Run(db, attempts))
    decreases |attempts|
  {
    hide Inv, Apply;
    if |attempts| > 0 {
      ApplyInv(db, attempts[0].op);
      RunInv(Step(db, attempts[0]), attempts[1..]);
    }
  }

  // ---------------------------------------------------------------- epochs

  /** What a run may do to an account: keep it, change it under a higher version,
      or remove it for good. */
  ghost predicate Evolves(db: Db, d: Db) {
    && db.next <= d.next
    && (forall id :: 0 <= id < db.next && id !in db.users ==> id !in d.users)
    && (forall id :: id in db.users && id in d.users ==>
          d.users[id] == db.users[id] || db.users[id].version < d.users[id].version)
    && db.audit <= d.audit
  }

  lemma EvolvesOn(a: Db, b: Db, c: Db)
    requires Inv(a) && Evolves(a, b) && Evolves(b, c)
    ensures Evolves(a, c)
  {
    forall id | id in a.users && id in c.users
      ensures id in b.users
    {
      assert id < a.next;
    }
  }

  lemma TransferEvolves(db: Db, actor: Actor, target: nat, claim: bool)
    requires Inv(db)
    ensures Evolves(db, TransferOwner(db, actor, target, claim).0)
  {
  }

  lemma ManageEvolves(db: Db, actor: Actor, id: nat, change: Change)
    requires Inv(db)
    ensures Evolves(db, ManageIdentity(db, actor, id, change).0)
  {
  }

  lemma ApplyEvolves(db: Db, op: Op)
    requires Inv(db)
    ensures Evolves(db, Apply(db, op).0)
  {
    match op
    case OpCreate(actor, name, hash, role) =>
    case OpManage(actor, id, change) => ManageEvolves(db, actor, id, change);
    case OpTransfer(actor, target, claim) => TransferEvolves(db, actor, target, claim);
    case OpRegister(name, hash, role) =>
    case OpBootstrap(name, hash) =>
    case OpStatus(id, status) =>
    case OpPassword(id, hash, expected) =>
    case OpDelete(id) =>
    case OpLogin(token, id, verified, version) =>
    case OpDropSession(token) =>
  }

  /** Versions only grow, every change to an account raises its version, a removed
      id never returns and the audit is only appended to. */
  lemma {:induction false} RunEvolves(db: Db, attempts: seq<Attempt>)
    requires Inv(db)
    ensures Evolves(db, Run(db, attempts))
    decreases |attempts|
  {
    if |attempts| > 0 {
      var d := Step(db, attempts[0]);
      ApplyInv(db, attempts[0].op);
      ApplyEvolves(db, attempts[0].op);
      RunEvolves(d, attempts[1..]);
      EvolvesOn(db, d, Run(d, attempts[1..]));
    }
  }

  predicate ActsBy(op: Op, actor: Actor) {
    (op.OpCreate? || op.OpManage? || op.OpTransfer?) && op.actor == actor
  }

  /** A handle captured before any change to its account is worthless ever after:
      whatever happens next, every operation tried with it is refused. */
  lemma StaleActorIsRefused(db: Db, actor: Actor, before: seq<Attempt>, after: seq<Attempt>, op: Op)
    requires Inv(db) && !actor.recovery && ActorRole(db, actor).Some?
    requires var d := Run(db, before); actor.id !in d.users || d.users[actor.id] != db.users[actor.id]
    requires ActsBy(op, actor)
    ensures ActorRole(Run(Run(db, before), after), actor).None?
    ensures var last := Run(Run(db, before), after); Apply(last, op) == (last, Refused)
  {
    var d := Run(db, before);
    RunInv(db, before);
    RunEvolves(db, before);
    RunEvolves(d, after);
    hide Run;
    assert actor.id in db.users && actor.id < db.next;
  }

  /** Neither does a session outlive a change to its user's account. */
  lemma StaleSessionIsInvalid(db: Db, token: string, before: seq<Attempt>, after: seq<Attempt>, t: string)
    requires Inv(db) && ValidSession(db, token)
    requires var d := Run(db, before); var id := db.sessions[token].user;
             id !in d.users || d.users[id] != db.users[id]
    ensures var last := Run(Run(db, before), after);
            ValidSession(last, t) ==> last.sessions[t] != db.sessions[token]
  {
    var d := Run(db, before);
    RunInv(db, before);
    RunEvolves(db, before);
    RunEvolves(d, after);
    hide Run;
    assert db.sessions[token].user < db.next;
  }

  // ------------------------------------------------------------- ownership

  lemma OwnerStaysByManage(db: Db, actor: Actor, id: nat, change: Change, o: nat)
    requires IsOwner(db, o)
    ensures var d := ManageIdentity(db, actor, id, change).0;
            IsOwner(d, o) && (d.users[o] != db.users[o] ==> actor.recovery && change.ToPassword? && id == o)
  {
  }

  /** Only a transfer takes ownership away, and the owner's account is otherwise
      changed only by a password: its own, or one set through recovery. */
  lemma OwnerIsProtected(db: Db, op: Op, o: nat)
    requires Inv(db) && IsOwner(db, o)
    ensures var (d, outcome) := Apply(db, op);
            && (op.OpTransfer? && outcome.Changed? ==> IsOwner(d, op.target) && o in d.users && d.users[o].role.Admin?)
            && (!(op.OpTransfer? && outcome.Changed?) ==>
                  && IsOwner(d, o)
                  && (d.users[o] != db.users[o] ==>
                        || (op.OpPassword? && op.id == o)
                        || (op.OpManage? && op.id == o && op.actor.recovery && op.change.ToPassword?)))
  {
    match op
    case OpManage(actor, id, change) => OwnerStaysByManage(db, actor, id, change, o);
    case OpTransfer(actor, target, claim) =>
      if MayTransfer(db, actor, target, claim) {
        TransferInv(db, actor, target, claim);
        assert 0 < o < db.next;
        assert OwnerId(db) == Some(o);
      }
    case OpCreate(actor, name, hash, role) => assert o < db.next;
    case OpRegister(name, hash, role) => assert o < db.next;
    case OpBootstrap(name, hash) => assert o < db.next;
    case OpStatus(id, status) =>
    case OpPassword(id, hash, expected) =>
    case OpDelete(id) =>
    case OpLogin(token, id, verified, version) =>
    case OpDropSession(token) =>
  }

  /** Once there is an owner there always is one. */
  lemma {:induction false} OwnerNeverLost(db: Db, attempts: seq<Attempt>)
    requires Inv(db) && HasOwner(db)
    ensures HasOwner(Run(db, attempts))
    decreases |attempts|
  {
    if |attempts| > 0 {
      var o :| o in db.users && db.users[o].role.Owner?;
      assert IsOwner(db, o);
      ApplyInv(db, attempts[0].op);
      OwnerIsProtected(db, attempts[0].op, o);
      var d := Step(db, attempts[0]);
      assert HasOwner(d) by {
        var op := attempts[0].op;
        if attempts[0].commits && op.OpTransfer? && Apply(db, op).1.Changed? {
          assert IsOwner(d, op.target);
        } else {
          assert IsOwner(d, o);
        }
      }
      hide Inv, Apply, HasOwner;
      OwnerNeverLost(d, attempts[1..]);
    }
  }

  /** From an empty database, in every run: at most one owner; once there has been
      one there is exactly one, and it is active. */
  lemma ExactlyOneActiveOwner(before: seq<Attempt>, after: seq<Attempt>)
    ensures var d := Run(EMPTY, before); var last := Run(d, after);
            && (forall i, j :: IsOwner(last, i) && IsOwner(last, j) ==> i == j)
            && (HasOwner(d) ==> exists o :: IsOwner(last, o) && last.users[o].status.Active?)
  {
    EmptyInv();
    RunInv(EMPTY, before);
    var d := Run(EMPTY, before);
    RunInv(d, after);
    if HasOwner(d) {
      OwnerNeverLost(d, after);
      var last := Run(d, after);
      var o :| o in last.users && last.users[o].role.Owner?;
      assert IsOwner(last, o);
    }
  }

  // ------------------------------------------------------------ privileges

  predicate Privileged(db: Db, id: nat) { id in db.users && IsAdminRole(db.users[id].role) }

  /** An actor that is not the owner (an ordinary admin, or nobody) can neither make
      nor touch an administrator. */
  lemma OrdinaryAdminsManageUsersOnly(db: Db, op: Op, actor: Actor, id: nat)
    requires Inv(db) && ActsBy(op, actor) && ActorRole(db, actor) != Some(Owner)
    ensures var d := Apply(db, op).0;
            && (Privileged(d, id) <==> Privileged(db, id))
            && (Privileged(db, id) ==> d.users[id] == db.users[id])
  {
    if id in db.users { assert id < db.next; }
  }

  /** The audit trail is complete for the managing operations: one entry naming the
      actor for each that changed something, none for the others, which change
      nothing. */
  lemma EveryChangeIsAudited(db: Db, op: Op)
    requires op.OpCreate? || op.OpManage? || op.OpTransfer?
    ensures var (d, outcome) := Apply(db, op);
            && (outcome.Changed? ==> |d.audit| == |db.audit| + 1 && d.audit[..|db.audit|] == db.audit
                                     && d.audit[|db.audit|].actor == op.actor.id && d.users != db.users)
            && (!outcome.Changed? ==> d == db)
  {
    match op
    case OpCreate(actor, name, hash, role) => AuditOfCreate(db, actor, name, hash, role);
    case OpManage(actor, id, change) => AuditOfManage(db, actor, id, change);
    case OpTransfer(actor, target, claim) => AuditOfTransfer(db, actor, target, claim);
  }

  lemma AuditOfCreate(db: Db, actor: Actor, name: string, hash: string, role: Role)
    ensures var (d, outcome) := CreateManagedUser(db, actor, name, hash, role);
            outcome.Changed? ==> d.users != db.users && d.audit == db.audit + [Entry(actor.id, db.next, Created)]
  {
    var (d, outcome) := CreateManagedUser(db, actor, name, hash, role);
    if outcome.Changed? {
      assert d.users[db.next].name == name;
      assert db.next !in db.users || db.users[db.next].name != name;
    }
  }

  lemma AuditOfManage(db: Db, actor: Actor, id: nat, change: Change)
    ensures var (d, outcome) := ManageIdentity(db, actor, id, change);
            outcome.Changed? ==> d.users != db.users && |d.audit| == |db.audit| + 1
                                 && d.audit == db.audit + [d.audit[|db.audit|]] && d.audit[|db.audit|].actor == actor.id
  {
    var (d, outcome) := ManageIdentity(db, actor, id, change);
    if outcome.Changed? {
      assert d.users[id].version == db.users[id].version + 1;
    }
  }

  lemma AuditOfTransfer(db: Db, actor: Actor, target: nat, claim: bool)
    ensures var (d, outcome) := TransferOwner(db, actor, target, claim);
            outcome.Changed? ==> d.users != db.users && |d.audit| == |db.audit| + 1
                                 && d.audit == db.audit + [d.audit[|db.audit|]] && d.audit[|db.audit|].actor == actor.id
  {
    var (d, outcome) := TransferOwner(db, actor, target, claim);
    if outcome.Changed? {
      assert d.users[target].role.Owner? && !db.users[target].role.Owner?;
    }
  }
}
