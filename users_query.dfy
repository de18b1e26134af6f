/**
 * The user queries and the two user mutations. The mutations have no optimistic
 * step and no rollback: their one cache effect is invalidating everything under
 * `["users"]` once the service call resolves.
 */
module UsersQuery {
  import opened Wrappers
  import opened Errors
  import opened QueryKeys
  import opened QueryCache
  import opened OrdersQuery

  const UsersAll: Key := [Str("users")]

  function UserKey(userId: string): Key
  {
    UsersAll + [Str(userId)]
  }

  function UserStatsKey(): Key
  {
    UsersAll + [Str("stats")]
  }

  function UserSearchKey(query: string): Key
  {
    UsersAll + [Str("search"), Str(query)]
  }

  /** The prefix `["users"]` covers the list key and every per-user, stats and search key. */
  lemma UsersPrefixCovers(userId: string, query: string)
    ensures Under(UsersAll, UsersAll) && Under(UserKey(userId), UsersAll)
    ensures Under(UserStatsKey(), UsersAll) && Under(UserSearchKey(query), UsersAll)
    ensures !Under(OrdersAll, UsersAll) && !Under(TasksByOrder(userId), UsersAll)
  {
    assert OrdersAll[0] != UsersAll[0];
    assert TasksByOrder(userId)[0] != UsersAll[0];
  }

  function UsersQuerySpec(): (q: QuerySpec)
    ensures q.key == UsersAll && q.enabled
  {
    QuerySpec(UsersAll, true)
  }

  /** The per-user query runs only for a non-empty id. */
  function UserQuerySpec(userId: string): (q: QuerySpec)
    ensures q.key == UserKey(userId)
    ensures q.enabled <==> |userId| > 0
  {
    QuerySpec(UserKey(userId), userId != "")
  }

  function UserStatsQuerySpec(): (q: QuerySpec)
    ensures q.key == UserStatsKey() && q.enabled
  {
    QuerySpec(UserStatsKey(), true)
  }

  /** The search query runs only for a non-empty query. */
  function SearchUsersQuerySpec(query: string): (q: QuerySpec)
    ensures q.key == UserSearchKey(query)
    ensures q.enabled <==> |query| > 0
  {
    QuerySpec(UserSearchKey(query), |query| > 0)
  }

  /**
   * Role update and profile delete: when the call resolves, whatever error it
   * reports, everything under `["users"]` is invalidated; no entry's data changes.
   */
  method UserMutation(qc: QueryClient, result: Outcome<Option<Thrown>>)
    modifies qc
    ensures result.Resolved? ==> qc.State() == Invalidate(old(qc.State()), UsersAll)
    ensures result.Rejected? ==> qc.State() == old(qc.State())
    ensures qc.entries == old(qc.entries)
  {
    if result.Resolved? {
      qc.InvalidateQueries(UsersAll);
    }
  }
}
