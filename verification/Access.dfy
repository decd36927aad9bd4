/** Who may do what, read off the rows of users, tenants, outlets and sessions. */
module Access {
  import opened Base
  import opened Schema

  /** An active user of an active tenant. */
  predicate Member(db: Store, actor: Actor) {
    && actor.tenant in db.tenants && db.tenants[actor.tenant].active
    && actor.sub in db.users && db.users[actor.sub].tenant == actor.tenant && db.users[actor.sub].active
  }

  predicate HasRole(db: Store, actor: Actor, roles: set<Role>) {
    actor.sub in db.users && db.users[actor.sub].role in roles
  }

  /** The caller may sell: an active user of an active tenant in one of the three roles. */
  predicate MaySell(db: Store, actor: Actor) {
    Member(db, actor) && HasRole(db, actor, {Owner, Admin, Cashier})
  }

  /** The caller is a cashier in the users table. */
  predicate Cashes(db: Store, actor: Actor) {
    HasRole(db, actor, {Cashier})
  }

  predicate AssignedTo(db: Store, actor: Actor, outlet: Id) {
    actor.sub in db.users && db.users[actor.sub].outlet == Some(outlet)
  }

  /** A cashier works at the assigned outlet, the others at any. */
  predicate WorksAt(db: Store, actor: Actor, outlet: Id) {
    Cashes(db, actor) ==> AssignedTo(db, actor, outlet)
  }

  predicate OpenOutlet(db: Store, tenant: Id, outlet: Id) {
    outlet in db.outlets && db.outlets[outlet].tenant == tenant && db.outlets[outlet].active
  }

  predicate OwnOpenSession(db: Store, actor: Actor, session: Id) {
    && session in db.sessions && db.sessions[session].open
    && db.sessions[session].tenant == actor.tenant && db.sessions[session].user == actor.sub
  }

  predicate SessionAt(db: Store, session: Id, outlet: Id) {
    session in db.sessions && db.sessions[session].outlet == outlet
  }

  /** A cashier needs an assigned outlet, and it must be open. */
  ghost predicate HasOutlet(db: Store, actor: Actor) {
    Cashes(db, actor) ==> exists o :: AssignedTo(db, actor, o)
  }

  ghost predicate OutletOpen(db: Store, actor: Actor) {
    Cashes(db, actor) ==> exists o :: AssignedTo(db, actor, o) && OpenOutlet(db, actor.tenant, o)
  }

  predicate Sees(db: Store, actor: Actor, order: Id) {
    && order in db.orders && db.orders[order].tenant == actor.tenant
    && WorksAt(db, actor, db.orders[order].outlet)
  }

  /** The caller's scope reaches the order. */
  ghost predicate InScope(db: Store, actor: Actor, order: Id) {
    MaySell(db, actor) && HasOutlet(db, actor) && OutletOpen(db, actor) && Sees(db, actor, order)
  }
}
