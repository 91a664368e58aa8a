/**
 * The `users` table (attorneys) and `UserRepository`. Rows are kept in scan order, so
 * `.first()` is the first matching row; ids and emails are unique.
 */
module Users {
  import opened Wrappers
  import opened Uuids
  import opened LeadModel
  import opened Database

  datatype User = User(
    id: Uuid,
    email: string,
    hashedPassword: string,
    firstName: string,
    lastName: string,
    createdAt: Time,
    updatedAt: Time)

  /** A `User(...)` before it is flushed: no id and no timestamps yet. */
  datatype UserDraft = UserDraft(email: string, hashedPassword: string, firstName: string, lastName: string)

  /** `query(User).filter(p).first()`: the first row satisfying `p`, or None. */
  function FirstWhere(rows: seq<User>, p: User -> bool): (r: Option<User>)
    ensures r.None? <==> forall i | 0 <= i < |rows| :: !p(rows[i])
    ensures r.Some? ==> exists i | 0 <= i < |rows| :: rows[i] == r.value && p(rows[i])
                                                   && forall j | 0 <= j < i :: !p(rows[j])
  {
    if rows == [] then None
    else if p(rows[0]) then Some(rows[0])
    else
      var r := FirstWhere(rows[1..], p);
      assert r.Some? ==> exists i | 0 <= i < |rows[1..]| :: rows[1..][i] == r.value && p(rows[1..][i])
                                                          && forall j | 0 <= j < i :: !p(rows[1..][j]);
      assert r.Some? ==> exists i | 0 <= i < |rows| :: rows[i] == r.value && p(rows[i])
                                                     && forall j | 0 <= j < i :: !p(rows[j]) by {
        if r.Some? {
          var i :| 0 <= i < |rows[1..]| && rows[1..][i] == r.value && p(rows[1..][i])
                   && forall j | 0 <= j < i :: !p(rows[1..][j]);
          assert rows[i + 1] == r.value && forall j | 0 <= j < i + 1 :: !p(rows[j]);
        }
      }
      r
  }

  ghost predicate UniqueKeys(rows: seq<User>) {
    forall i, j | 0 <= i < j < |rows| :: rows[i].id != rows[j].id && rows[i].email != rows[j].email
  }

  class UserRepository {
    var rows: seq<User>

    ghost predicate Valid()
      reads this
    {
      UniqueKeys(rows)
    }

    constructor ()
      ensures Valid() && rows == []
    {
      rows := [];
    }

    /** `get_by_id`: the user with that id, or None when there is none. */
    function GetById(id: Uuid): (r: Option<User>)
      reads this
      ensures r.None? <==> forall u | u in rows :: u.id != id
      ensures r.Some? ==> r.value in rows && r.value.id == id
    {
      FirstWhere(rows, (u: User) => u.id == id)
    }

    /** `get_by_email`: the user with that email, or None when there is none. */
    function GetByEmail(email: string): (r: Option<User>)
      reads this
      ensures r.None? <==> forall u | u in rows :: u.email != email
      ensures r.Some? ==> r.value in rows && r.value.email == email
    {
      FirstWhere(rows, (u: User) => u.email == email)
    }

    /**
     * `create`: appends the user under `id`, with one clock reading for each timestamp
     * default. A taken id or email breaks a constraint; a refused commit is rolled back
     * and raised; a refresh failure after the commit raises with the user stored.
     */
    method Create(draft: UserDraft, id: Uuid, createdAt: Time, updatedAt: Time, commit: CommitOutcome)
      returns (r: Result<User, DbError>)
      requires Valid()
      modifies this
      ensures Valid()
      ensures (exists u | u in old(rows) :: u.id == id || u.email == draft.email) ==> r == Failure(IntegrityViolation)
      ensures r.Success? <==> commit == Committed && forall u | u in old(rows) :: u.id != id && u.email != draft.email
      ensures (forall u | u in old(rows) :: u.id != id && u.email != draft.email) ==>
                && (commit == CommitRefused ==> r == Failure(CommitFailed))
                && (commit == RefreshFailed ==> r == Failure(RefreshError))
      ensures r.Success? ==> r.value == User(id, draft.email, draft.hashedPassword, draft.firstName, draft.lastName, createdAt, updatedAt)
      ensures (forall u | u in old(rows) :: u.id != id && u.email != draft.email) && Persisted(commit) ==>
                var user := User(id, draft.email, draft.hashedPassword, draft.firstName, draft.lastName, createdAt, updatedAt);
                && rows == old(rows) + [user]
                && GetById(id) == Some(user) && GetByEmail(draft.email) == Some(user)
      ensures !((forall u | u in old(rows) :: u.id != id && u.email != draft.email) && Persisted(commit)) ==>
                rows == old(rows)
    {
      var clash := FirstWhere(rows, (u: User) => u.id == id || u.email == draft.email);
      if clash.Some? {
        return Failure(IntegrityViolation);
      }
      if commit == CommitRefused {
        return Failure(CommitFailed);
      }
      var user := User(id, draft.email, draft.hashedPassword, draft.firstName, draft.lastName, createdAt, updatedAt);
      rows := rows + [user];
      EmailsIdentify(user);
      if commit == RefreshFailed {
        return Failure(RefreshError);
      }
      r := Success(user);
    }

    /** Emails are unique, so the lookup finds the one user with that email. */
    lemma EmailsIdentify(u: User)
      requires Valid() && u in rows
      ensures GetByEmail(u.email) == Some(u) && GetById(u.id) == Some(u)
    {
      var k :| 0 <= k < |rows| && rows[k] == u;
      var e := GetByEmail(u.email);
      var i :| 0 <= i < |rows| && rows[i] == e.value && rows[i].email == u.email;
      assert i == k;
      var d := GetById(u.id);
      var j :| 0 <= j < |rows| && rows[j] == d.value && rows[j].id == u.id;
      assert j == k;
    }
  }
}
