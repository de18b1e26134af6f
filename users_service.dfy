/**
 * The user administration service. Its list methods rethrow, its single-user
 * lookup answers null on any failure, its two writes report failure in a
 * returned error, and its statistics never fail.
 */
module UsersService {
  import opened Wrappers
  import opened Domain
  import opened Errors
  import opened Schemas
  import opened AuthSchemas
  import Seqs

  /**
   * What the list methods throw: a plain error whose message names the
   * operation and the backend's message, or the profile schema's issues.
   */
  datatype UsersError = FetchFailed(message: string) | InvalidProfile(issues: seq<Issue>)

  /** `rows.map(p => ProfileSchema.parse(p))`: every row, or the issues of the first invalid one. */
  function ParseProfiles(rows: seq<Profile>, fmt: Formats): (r: Result<seq<Profile>, seq<Issue>>)
    ensures r.Ok? <==> forall i :: 0 <= i < |rows| ==> ValidProfile(rows[i], fmt)
    ensures r.Ok? ==> r.value == rows
    ensures r.Err? ==>
      exists i :: 0 <= i < |rows| && !ValidProfile(rows[i], fmt)
                  && (forall j :: 0 <= j < i ==> ValidProfile(rows[j], fmt))
                  && r.error == ProfileIssues(rows[i], fmt)
  {
    if rows == [] then Ok([])
    else if !ValidProfile(rows[0], fmt) then Err(ProfileIssues(rows[0], fmt))
    else
      var rest := ParseProfiles(rows[1..], fmt);
      assert forall i :: 0 <= i < |rows| - 1 ==> rows[1..][i] == rows[i + 1];
      if rest.Err? then Err(rest.error)
      else
        assert rows == [rows[0]] + rows[1..];
        Ok([rows[0]] + rest.value)
  }

  /** A list answer: the backend's message after the operation's prefix, no rows for null, or the parsed rows. */
  function UserList(answer: Backend<seq<Profile>>, failPrefix: string, fmt: Formats): (r: Result<seq<Profile>, UsersError>)
    ensures answer.Failed? ==> r == Err(FetchFailed(failPrefix + answer.message))
    ensures answer == Data(None) ==> r == Ok([])
    ensures answer.Data? && answer.rows.Some? ==>
      (r.Ok? <==> forall i :: 0 <= i < |answer.rows.value| ==> ValidProfile(answer.rows.value[i], fmt))
    ensures r.Ok? && answer.Data? && answer.rows.Some? ==> r.value == answer.rows.value
  {
    match answer
    case Failed(_, message) => Err(FetchFailed(failPrefix + message))
    case Data(None) => Ok([])
    case Data(Some(rows)) =>
      match ParseProfiles(rows, fmt)
      case Ok(ps) => Ok(ps)
      case Err(issues) => Err(InvalidProfile(issues))
  }

  /** The profiles list query: an optional `or` filter, an optional role match, newest first. */
  datatype ProfilesQuery = ProfilesQuery(orFilter: Option<string>, roleEq: Option<string>, orderBy: string, ascending: bool)

  /** Every list is ordered by creation time, newest first. */
  function NewestFirst(orFilter: Option<string>, roleEq: Option<string>): (q: ProfilesQuery)
    ensures q.orderBy == "created_at" && !q.ascending
    ensures q.orFilter == orFilter && q.roleEq == roleEq
  {
    ProfilesQuery(orFilter, roleEq, "created_at", false)
  }

  /** `getAllUsers`: every profile, unfiltered. */
  function GetAllUsers(fmt: Formats, backend: ProfilesQuery -> Backend<seq<Profile>>): (r: Result<seq<Profile>, UsersError>)
    ensures var answer := backend(NewestFirst(None, None));
      && (answer.Failed? ==> r == Err(FetchFailed("Failed to fetch users: " + answer.message)))
      && (answer == Data(None) ==> r == Ok([]))
      && (r.Ok? && answer.rows.Some? ==> r.value == answer.rows.value)
  {
    UserList(backend(NewestFirst(None, None)), "Failed to fetch users: ", fmt)
  }

  /** The search filter: the query matched case-insensitively inside the email or the full name. */
  function SearchFilter(query: string): string
  {
    "email.ilike.%" + query + "%,full_name.ilike.%" + query + "%"
  }

  /** `searchUsers`: the profiles the search filter selects. */
  function SearchUsers(query: string, fmt: Formats, backend: ProfilesQuery -> Backend<seq<Profile>>)
    : (r: Result<seq<Profile>, UsersError>)
    ensures var answer := backend(NewestFirst(Some(SearchFilter(query)), None));
      && (answer.Failed? ==> r == Err(FetchFailed("Failed to search users: " + answer.message)))
      && (answer == Data(None) ==> r == Ok([]))
      && (r.Ok? && answer.rows.Some? ==> r.value == answer.rows.value)
  {
    UserList(backend(NewestFirst(Some(SearchFilter(query)), None)), "Failed to search users: ", fmt)
  }

  /** `getUsersByRole`: the profiles with exactly that role. */
  function GetUsersByRole(role: string, fmt: Formats, backend: ProfilesQuery -> Backend<seq<Profile>>)
    : (r: Result<seq<Profile>, UsersError>)
    requires IsRole(role)
    ensures var answer := backend(NewestFirst(None, Some(role)));
      && (answer.Failed? ==> r == Err(FetchFailed("Failed to fetch users by role: " + answer.message)))
      && (answer == Data(None) ==> r == Ok([]))
      && (r.Ok? && answer.rows.Some? ==> r.value == answer.rows.value)
  {
    UserList(backend(NewestFirst(None, Some(role))), "Failed to fetch users by role: ", fmt)
  }

  /** `getUserById`: the valid profile, or null on an error, on no row and on a row the schema rejects. */
  function GetUserById(answer: Backend<Profile>, fmt: Formats): (r: Option<Profile>)
    ensures r.Some? <==> answer.Data? && answer.rows.Some? && ValidProfile(answer.rows.value, fmt)
    ensures r.Some? ==> r.value == answer.rows.value
  {
    match answer
    case Data(Some(p)) => if ValidProfile(p, fmt) then Some(p) else None
    case _ => None
  }

  /** The write of `updateUserRole`: the role and the update time of the user's row, nothing else. */
  function RoleWrite(updates: UpdateUserRoleData, now: string): (w: ProfileWrite)
    ensures w.id == updates.userId && w.role == Some(updates.role) && w.updatedAt == Some(now)
    ensures w.fullName.None? && w.email.None? && w.avatarUrl.None?
  {
    ProfileWrite(updates.userId, None, None, None, Some(updates.role), Some(now))
  }

  /**
   * `updateUserRole`: never throws; a backend failure comes back as the
   * returned error with the backend's message, success as no error.
   */
  function UpdateUserRole(updates: UpdateUserRoleData, now: string, backend: ProfileWrite -> Backend<()>)
    : (error: Option<string>)
    ensures error.Some? <==> backend(RoleWrite(updates, now)).Failed?
    ensures error.Some? ==> error.value == backend(RoleWrite(updates, now)).message
  {
    match backend(RoleWrite(updates, now))
    case Failed(_, message) => Some(message)
    case Data(_) => None
  }

  /** `deleteUserProfile`: never throws; the backend's message comes back as the returned error. */
  function DeleteUserProfile(answer: Backend<()>): (error: Option<string>)
    ensures error.Some? <==> answer.Failed?
    ensures error.Some? ==> error.value == answer.message
  {
    match answer
    case Failed(_, message) => Some(message)
    case Data(_) => None
  }

  datatype UserStats = UserStats(total: nat, admins: nat, users: nat)

  /** The number of roles equal to `role`. */
  function CountRole(roles: seq<string>, role: string): (n: nat)
    ensures n <= |roles|
  {
    |Seqs.Filter(roles, (r: string) => r == role)|
  }

  /** `getUserStats`: counts over the roles; all zeros on an error or on null data. */
  function GetUserStats(answer: Backend<seq<string>>): (s: UserStats)
    ensures answer.Failed? || answer == Data(None) ==> s == UserStats(0, 0, 0)
    ensures answer.Data? && answer.rows.Some? ==>
      s.total == |answer.rows.value| && s.admins == CountRole(answer.rows.value, "admin")
      && s.users == CountRole(answer.rows.value, "user")
  {
    match answer
    case Data(Some(roles)) => UserStats(|roles|, CountRole(roles, "admin"), CountRole(roles, "user"))
    case _ => UserStats(0, 0, 0)
  }

  /** Counting splits off the first role. */
  lemma CountRoleCons(roles: seq<string>, role: string)
    requires roles != []
    ensures CountRole(roles, role) == (if roles[0] == role then 1 else 0) + CountRole(roles[1..], role)
  {
    assert roles == [roles[0]] + roles[1..];
  }

  /** Each role is counted at most once, and every known role exactly once. */
  lemma {:induction false} RoleCountsWithin(roles: seq<string>)
    ensures CountRole(roles, "admin") + CountRole(roles, "user") <= |roles|
    ensures (forall i :: 0 <= i < |roles| ==> IsRole(roles[i])) ==>
      CountRole(roles, "admin") + CountRole(roles, "user") == |roles|
  {
    if roles != [] {
      var rest := roles[1..];
      CountRoleCons(roles, "admin");
      CountRoleCons(roles, "user");
      RoleCountsWithin(rest);
      if forall i :: 0 <= i < |roles| ==> IsRole(roles[i]) {
        assert forall i :: 0 <= i < |rest| ==> rest[i] == roles[i + 1];
      }
    }
  }

  /** Admins and users never add up to more than the total, and exactly to it when every role is known. */
  lemma StatsWithinTotal(answer: Backend<seq<string>>)
    ensures var s := GetUserStats(answer); s.admins + s.users <= s.total
    ensures answer.Data? && answer.rows.Some? && (forall i :: 0 <= i < |answer.rows.value| ==> IsRole(answer.rows.value[i])) ==>
      var s := GetUserStats(answer); s.admins + s.users == s.total
  {
    if answer.Data? && answer.rows.Some? {
      RoleCountsWithin(answer.rows.value);
    }
  }
}
