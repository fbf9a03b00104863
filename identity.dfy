/**
 * The host's identity databases as the program sees them through the `users` crate:
 * users by name, groups by gid, and the effective uid. They are inputs here.
 */
module Identity {
  import opened Wrappers
  import opened Errors

  /** A passwd entry: name, uid, primary gid and login shell path. */
  datatype User = User(name: string, uid: u32, primaryGid: u32, shell: string)

  /** A group entry: name and gid. */
  datatype Group = Group(name: string, gid: u32)

  datatype UserDb = UserDb(users: map<string, User>, groups: map<u32, Group>)

  /** `ensure_root`: only the effective uid 0 may provision. */
  function EnsureRoot(euid: u32): (r: Result<(), Error>)
    ensures r.Ok? <==> euid == 0
    ensures r.Err? ==> r.error == NotRoot
  {
    if euid != 0 then Err(NotRoot) else Ok(())
  }

  /** `find_user`: no name asked for is `Ok(None)`; a name the host lacks is `NoUser`. */
  function FindUser(db: UserDb, name: Option<string>): (r: Result<Option<User>, Error>)
    ensures name.None? ==> r == Ok(None)
    ensures name.Some? && name.value in db.users ==> r == Ok(Some(db.users[name.value]))
    ensures name.Some? && name.value !in db.users ==> r == Err(NoUser(name.value))
  {
    match name
    case Some(n) => if n in db.users then Ok(Some(db.users[n])) else Err(NoUser(n))
    case None => Ok(None)
  }

  /** `find_group`: the group with that gid, or `NoGid(gid)`. */
  function FindGroup(db: UserDb, gid: u32): (r: Result<Group, Error>)
    ensures r.Ok? <==> gid in db.groups
    ensures r.Ok? ==> r.value == db.groups[gid]
    ensures r.Err? ==> r.error == NoGid(gid)
  {
    if gid in db.groups then Ok(db.groups[gid]) else Err(NoGid(gid))
  }
}
