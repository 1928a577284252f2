/** The users router (app/routers/users.py): the caller's profile, created
    on first access, and the caller's partial profile update. */
module Users {
  import opened Basics
  import opened Tables
  import Auth


  /** `str(current_user.get("sub"))`: a missing claim becomes the text "None". */
  function UserIdOf(claims: Auth.Claims): (r: string)
    ensures "sub" in claims ==> r == claims["sub"]
    ensures "sub" !in claims ==> r == "None"
    ensures r == "" <==> "sub" in claims && claims["sub"] == ""
  {
    if "sub" in claims then claims["sub"] else "None"
  }

  /** The profile created on first access (lines 28-35): the token's email,
      the role "student" and the name "New User". */
  function NewProfile(userId: string, claims: Auth.Claims): (p: UserRow)
    ensures p.id == userId && p.email == Lookup(claims, "email")
    ensures p.role == Some("student") && p.firstName == Some("New") && p.lastName == Some("User")
    ensures p.avatarUrl.None? && p.mobile.None? && p.country.None?
  {
    UserRow(userId, Lookup(claims, "email"), Some("New"), Some("User"), None, Some("student"), None, None)
  }

  /** Once a profile is stored for an id without one, the next lookup finds
      it: a second `/users/me` returns it and inserts nothing. */
  lemma {:induction false} CreatedProfileIsFound(users: seq<UserRow>, p: UserRow)
    requires FirstUserWithId(users, p.id).None?
    ensures FirstUserWithId(users + [p], p.id) == Some(p)
  {
    if |users| > 0 {
      assert (users + [p])[1..] == users[1..] + [p];
      CreatedProfileIsFound(users[1..], p);
    }
  }

  /** `UserUpdate` after `{k: v ... if v is not None}`: None drops a field. */
  datatype UserPatch = UserPatch(firstName: Option<string>, lastName: Option<string>,
                                 mobile: Option<string>, country: Option<string>,
                                 avatarUrl: Option<string>)

  predicate EmptyPatch(p: UserPatch) {
    p.firstName.None? && p.lastName.None? && p.mobile.None? && p.country.None? && p.avatarUrl.None?
  }

  function Keep(v: Option<string>, current: Option<string>): Option<string> {
    if v.Some? then v else current
  }

  function PatchedUser(u: UserRow, p: UserPatch): (r: UserRow)
    ensures EmptyPatch(p) ==> r == u
  {
    u.(firstName := Keep(p.firstName, u.firstName), lastName := Keep(p.lastName, u.lastName),
       mobile := Keep(p.mobile, u.mobile), country := Keep(p.country, u.country),
       avatarUrl := Keep(p.avatarUrl, u.avatarUrl))
  }

  /** A profile update can never change the id, the email or the role, it
      sets every field it names, and applying it twice is applying it once. */
  lemma PatchKeepsIdentityAndRole(u: UserRow, p: UserPatch)
    ensures var r := PatchedUser(u, p);
            r.id == u.id && r.email == u.email && r.role == u.role
            && (p.firstName.Some? ==> r.firstName == p.firstName)
            && (p.lastName.Some? ==> r.lastName == p.lastName)
            && (p.mobile.Some? ==> r.mobile == p.mobile)
            && (p.country.Some? ==> r.country == p.country)
            && (p.avatarUrl.Some? ==> r.avatarUrl == p.avatarUrl)
            && PatchedUser(r, p) == r
  {
  }

  /** `update(...).eq("id", user_id)`: every row with that id is patched. */
  function PatchUsers(users: seq<UserRow>, id: string, p: UserPatch): (r: seq<UserRow>)
    ensures |r| == |users|
  {
    seq(|users|, i requires 0 <= i < |users| =>
      if users[i].id == id then PatchedUser(users[i], p) else users[i])
  }

  lemma {:induction false} PatchedFirstUser(users: seq<UserRow>, id: string, p: UserPatch)
    ensures FirstUserWithId(PatchUsers(users, id, p), id)
            == match FirstUserWithId(users, id)
               case None => None
               case Some(u) => Some(PatchedUser(u, p))
  {
    if |users| > 0 && users[0].id != id {
      assert PatchUsers(users[1..], id, p) == PatchUsers(users, id, p)[1..];
      PatchedFirstUser(users[1..], id, p);
    }
  }

  /** Patching a table without a row for the id leaves it as it was. */
  lemma PatchWithoutRowChangesNothing(users: seq<UserRow>, id: string, p: UserPatch)
    requires FirstUserWithId(users, id).None?
    ensures PatchUsers(users, id, p) == users
  {
  }

  /** The `users` table. */
  class UsersDb {
    var users: seq<UserRow>

    constructor (users0: seq<UserRow>)
      ensures users == users0
    {
      users := users0;
    }

    /** `read_users_me` (lines 14-50): 400 for an empty id; the first row
        with the id when there is one, and no insert; otherwise one new
        profile inserted and returned. Exceptions of the select or insert
        (`selectError`, `WriteFailed`) become a 500 "Database error: ...",
        and an empty insert result the 500 it raises itself. */
    method ReadUsersMe(claims: Auth.Claims, selectError: Option<string>, write: Write)
      returns (r: Response<UserRow>)
      modifies this`users
      ensures var uid := UserIdOf(claims);
              (uid == "" ==> users == old(users) && r == Raised(HttpError(BAD_REQUEST, "Invalid user token")))
              && (uid != "" && selectError.Some? ==>
                    users == old(users)
                    && r == Raised(HttpError(SERVER_ERROR, "Database error: " + selectError.value)))
              && (uid != "" && selectError.None? && FirstUserWithId(old(users), uid).Some? ==>
                    users == old(users) && r == Ok(FirstUserWithId(old(users), uid).value))
              && (uid != "" && selectError.None? && FirstUserWithId(old(users), uid).None? ==>
                    match write
                    case Stored =>
                      users == old(users) + [NewProfile(uid, claims)] && r == Ok(NewProfile(uid, claims))
                    case NoData =>
                      users == old(users)
                      && r == Raised(HttpError(SERVER_ERROR, "Could not create user profile"))
                    case WriteFailed(m) =>
                      users == old(users) && r == Raised(HttpError(SERVER_ERROR, "Database error: " + m)))
    {
      var uid := UserIdOf(claims);
      if uid == "" {
        return Raised(HttpError(BAD_REQUEST, "Invalid user token"));
      }
      if selectError.Some? {
        return Raised(HttpError(SERVER_ERROR, "Database error: " + selectError.value));
      }
      var existing := FirstUserWithId(users, uid);
      if existing.Some? {
        return Ok(existing.value);
      }
      var profile := NewProfile(uid, claims);
      match write {
        case NoData =>
          return Raised(HttpError(SERVER_ERROR, "Could not create user profile"));
        case WriteFailed(m) =>
          return Raised(HttpError(SERVER_ERROR, "Database error: " + m));
        case Stored =>
          users := users + [profile];
          r := Ok(profile);
      }
    }

    /** `update_user_me` (lines 52-70): 400 before any write for a patch
        without fields, 404 when the update at line 65 gives back no row,
        otherwise the first updated row. The update is outside any `try`, so
        its exception escapes the handler. */
    method UpdateUserMe(userId: string, patch: UserPatch, write: Write) returns (r: Response<UserRow>)
      modifies this`users
      ensures EmptyPatch(patch) ==>
                users == old(users) && r == Raised(HttpError(BAD_REQUEST, "No data to update"))
      ensures !EmptyPatch(patch) && write.WriteFailed? ==> users == old(users) && r == Crashed(write.message)
      ensures !EmptyPatch(patch) && write.NoData? ==>
                users == old(users) && r == Raised(HttpError(NOT_FOUND, "User not found"))
      ensures !EmptyPatch(patch) && write.Stored? && FirstUserWithId(old(users), userId).None? ==>
                users == old(users) && r == Raised(HttpError(NOT_FOUND, "User not found"))
      ensures !EmptyPatch(patch) && write.Stored? && FirstUserWithId(old(users), userId).Some? ==>
                users == PatchUsers(old(users), userId, patch)
                && r == Ok(PatchedUser(FirstUserWithId(old(users), userId).value, patch))
    {
      if EmptyPatch(patch) {
        return Raised(HttpError(BAD_REQUEST, "No data to update"));
      }
      match write {
        case WriteFailed(m) =>
          return Crashed(m);
        case NoData =>
          return Raised(HttpError(NOT_FOUND, "User not found"));
        case Stored =>
      }
      PatchedFirstUser(users, userId, patch);
      if FirstUserWithId(users, userId).None? {
        PatchWithoutRowChangesNothing(users, userId, patch);
      }
      users := PatchUsers(users, userId, patch);
      var updated := FirstUserWithId(users, userId);
      if updated.None? {
        return Raised(HttpError(NOT_FOUND, "User not found"));
      }
      r := Ok(updated.value);
    }
  }
}
