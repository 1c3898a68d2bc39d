/**
 * The client's local user store (client/src/utils/UserState.ts): one
 * localStorage slot under the key "web_craft_user_data" holding the signed-in
 * user as JSON. A slot holds either text that `JSON.parse` reads as a user or
 * text it rejects.
 */
module UserState {
  import opened Wrappers

  const StorageKey := "web_craft_user_data"

  /** The `User` interface: `username`, `email` and `_id`. */
  datatype StoredUser = StoredUser(username: string, email: string, id: string)

  /** The text in the slot: `JSON.stringify(user)`, or anything `JSON.parse` throws on (the empty string included). */
  datatype Slot = Json(user: StoredUser) | Garbage(text: string)

  /** `Partial<User>`: `None` is a field the caller leaves out. */
  datatype PartialUser = PartialUser(username: Option<string>, email: Option<string>, id: Option<string>)

  /** What `GetUserData` returns for a slot: `null` for no slot and for unparsable text. */
  function Read(slot: Option<Slot>): (r: Option<StoredUser>)
    ensures r.Some? <==> slot.Some? && slot.value.Json?
    ensures r.Some? ==> r.value == slot.value.user
  {
    match slot
    case Some(Json(u)) => Some(u)
    case _ => None
  }

  /** `{ ...parsed, ...updatedFields }` */
  function MergeUser(u: StoredUser, f: PartialUser): (r: StoredUser)
    ensures r.username == f.username.GetOr(u.username)
    ensures r.email == f.email.GetOr(u.email)
    ensures r.id == f.id.GetOr(u.id)
  {
    StoredUser(f.username.GetOr(u.username), f.email.GetOr(u.email), f.id.GetOr(u.id))
  }

  /** The slot after `UpdateUserData(f)`: untouched when it is empty or unparsable. */
  function Updated(slot: Option<Slot>, f: PartialUser): (r: Option<Slot>)
    ensures slot.None? ==> r.None?
    ensures slot.Some? && slot.value.Garbage? ==> r == slot
    ensures Read(slot).Some? ==> r == Some(Json(MergeUser(Read(slot).value, f)))
  {
    match slot
    case None => None
    case Some(Garbage(_)) => slot
    case Some(Json(u)) => Some(Json(MergeUser(u, f)))
  }

  class UserStore {
    /** The value of `localStorage.getItem(StorageKey)`. */
    var slot: Option<Slot>

    constructor ()
      ensures slot.None?
    {
      slot := None;
    }

    /** `SetUserData` */
    method SetUserData(u: StoredUser)
      modifies this
      ensures slot == Some(Json(u))
    {
      slot := Some(Json(u));
    }

    /** `GetUserData`: reading never changes the slot. */
    method GetUserData() returns (r: Option<StoredUser>)
      ensures r.Some? <==> slot.Some? && slot.value.Json?
      ensures r.Some? ==> r.value == slot.value.user
    {
      match slot
      case None =>
        r := None;
      case Some(Garbage(_)) =>
        r := None;   // the parse error is caught and logged
      case Some(Json(u)) =>
        r := Some(u);
    }

    /** `UpdateUserData` */
    method UpdateUserData(f: PartialUser)
      modifies this
      ensures slot == Updated(old(slot), f)
    {
      match slot
      case None =>
        return;
      case Some(Garbage(_)) =>
        return;      // the parse error is caught and logged
      case Some(Json(u)) =>
        slot := Some(Json(MergeUser(u, f)));
    }

    /** `DeleteUser` */
    method DeleteUser()
      modifies this
      ensures slot.None?
    {
      slot := None;
    }
  }

  /** Reading after a set gives back the user that was set. */
  lemma GetAfterSet(u: StoredUser)
    ensures Read(Some(Json(u))) == Some(u)
  {
  }

  /** An update that supplies no field leaves the slot as it was. */
  lemma UpdateNothingIsIdentity(slot: Option<Slot>)
    ensures Updated(slot, PartialUser(None, None, None)) == slot
  {
  }

  /** An update is seen by the next read exactly when a user was readable before it. */
  lemma ReadAfterUpdate(slot: Option<Slot>, f: PartialUser)
    ensures Read(Updated(slot, f)).Some? <==> Read(slot).Some?
    ensures Read(slot).Some? ==> Read(Updated(slot, f)) == Some(MergeUser(Read(slot).value, f))
  {
  }

  /** Two updates in a row equal one update whose later fields win. */
  lemma UpdatesCompose(slot: Option<Slot>, f: PartialUser, g: PartialUser)
    ensures Updated(Updated(slot, f), g)
         == Updated(slot, PartialUser(
              if g.username.Some? then g.username else f.username,
              if g.email.Some? then g.email else f.email,
              if g.id.Some? then g.id else f.id))
  {
  }

  /** A full update replaces the stored user, like a set, but only when a user is readable. */
  lemma FullUpdateIsSet(slot: Option<Slot>, u: StoredUser)
    requires Read(slot).Some?
    ensures Updated(slot, PartialUser(Some(u.username), Some(u.email), Some(u.id))) == Some(Json(u))
  {
  }

  /** The store through a session: set, update, read, delete, read. */
  method Session(u: StoredUser, name: string) returns (seen: Option<StoredUser>, after: Option<StoredUser>)
    ensures seen == Some(u.(username := name))
    ensures after.None?
  {
    var store := new UserStore();
    store.SetUserData(u);
    store.UpdateUserData(PartialUser(Some(name), None, None));
    seen := store.GetUserData();
    store.DeleteUser();
    after := store.GetUserData();
  }
}
