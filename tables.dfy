/** Rows of the `users` table, shared by every router, and the lookup the
    routers build with `{a["id"]: a for a in rows}`. */
module Tables {
  import opened Basics

  /** A `users` row (app/schemas.py, `User`), without `created_at`. */
  datatype UserRow = UserRow(
    id: string,
    email: Option<string>,
    firstName: Option<string>,
    lastName: Option<string>,
    avatarUrl: Option<string>,
    role: Option<string>,
    mobile: Option<string>,
    country: Option<string>)

  /** `{a["id"]: a for a in rows}.get(id)`: the dictionary keeps the LAST row
      with a given id, and a missing id gives None. */
  function UserById(rows: seq<UserRow>, id: string): (r: Option<UserRow>)
    ensures r.None? <==> forall i :: 0 <= i < |rows| ==> rows[i].id != id
    ensures r.Some? ==> exists i :: 0 <= i < |rows| && rows[i] == r.value && rows[i].id == id
                          && forall j :: i < j < |rows| ==> rows[j].id != id
  {
    if |rows| == 0 then None
    else
      var later := UserById(rows[1..], id);
      assert forall i :: 0 <= i < |rows| - 1 ==> rows[1..][i] == rows[i + 1];
      if later.Some? then later
      else if rows[0].id == id then Some(rows[0])
      else None
  }

  /** The first row whose id is `id`: a single-row select taken as "that row,
      or no data". */
  function FirstUserWithId(rows: seq<UserRow>, id: string): (r: Option<UserRow>)
    ensures r.None? <==> forall i :: 0 <= i < |rows| ==> rows[i].id != id
    ensures r.Some? ==> exists i :: 0 <= i < |rows| && rows[i] == r.value && rows[i].id == id
                          && forall j :: 0 <= j < i ==> rows[j].id != id
  {
    if |rows| == 0 then None
    else if rows[0].id == id then Some(rows[0])
    else
      var r := FirstUserWithId(rows[1..], id);
      assert forall i :: 0 <= i < |rows| - 1 ==> rows[1..][i] == rows[i + 1];
      r
  }

  /** The columns `id, first_name, last_name, avatar_url` the course routes
      select for a teacher (app/schemas.py, `Teacher`). */
  datatype Teacher = Teacher(id: string, firstName: Option<string>, lastName: Option<string>,
                             avatarUrl: Option<string>)

  function TeacherOf(u: UserRow): (t: Teacher)
    ensures t.id == u.id && t.firstName == u.firstName && t.lastName == u.lastName
    ensures t.avatarUrl == u.avatarUrl
  {
    Teacher(u.id, u.firstName, u.lastName, u.avatarUrl)
  }

  function TeacherById(rows: seq<UserRow>, id: string): (r: Option<Teacher>)
    ensures r.Some? <==> UserById(rows, id).Some?
    ensures r.Some? ==> r.value == TeacherOf(UserById(rows, id).value)
  {
    match UserById(rows, id)
    case None => None
    case Some(u) => Some(TeacherOf(u))
  }
}
