# Elevate dashboard core, modelled in Dafny

This project models the deterministic core of the Elevate order dashboard, a
Next.js client over a hosted Postgres backend. The model covers five groups.

- **Query-cache synchronisation.** The hierarchical query keys (`queryKeys`)
  and the shared query cache are modelled as a `QueryClient` class. Its
  `entries` field is a `map<Key, Option<Data>>` and its `invalidated` field is
  a set of stale keys. Each order, task and user mutation is a method that runs
  four phases in order: snapshot, optimistic write, remote outcome (a
  parameter), reconcile. The order-status mutation is modelled as written. On
  failure it restores only the detail entry. The cached lists keep the
  optimistic status, and `OrdersQuery.StatusFailureKeepsOptimisticList`
  exhibits this on a one-order cache.
- **Hook state.** `useOrders`, `useOrderDetail`, `useOrderStats`, `useTasks`
  and `useChartData` are classes whose `{list, loading, error}` fields the
  transitions update. Each transition is specified by a pure list function
  (replace-by-id, remove-by-id, bulk replace) and lemmas about it.
- **Services.** This group covers:
  - row-to-domain transforms and the update records built from partial inputs;
  - mapping backend code `PGRST116` to `NOT_FOUND`;
  - wrapping unknown errors as `UNKNOWN_ERROR`;
  - order and user statistics;
  - the avatar checks and storage paths;
  - the profile fallback.

  The backend is always a parameter: rows (possibly `null`) or an error code
  and message.
- **Validators.** The zod schemas of `types/schemas.ts`, `types/auth.ts` and
  the settings page are modelled as predicates. Each schema also has an issue
  list, in zod's order, whose first element is the message a form shows.
  Email, URL and UUID syntax are uninterpreted functions, passed in a
  `Formats` record.
- **Small rules.** This group covers:
  - the orders page filter;
  - the recent-orders selection and the status comparator;
  - user initials;
  - role-based navigation;
  - the sign-in callback's redirect table and the two page gates;
  - the static order table with its default lookup;
  - the persisted UI store;
  - both task boards, the settings handlers and the chat page.

Shared modules:
- `Wrappers` holds `Option` and `Result`.
- `Seqs` holds order-preserving filter and map.
- `Text` holds ASCII case mapping, `trim` over the full ECMAScript whitespace
  and line-terminator set, split/join, substring search and decimal rendering.
- `Domain` holds the entities.
- `Errors` holds thrown errors, error wrapping and toasts.

Clocks, generated ids, the network and storage are parameters of the
operations that use them.

## Model

| member | source | states |
|---|---|---|
| QueryKeys.OrdersLists | lib/queryKeys.ts:11 | the lists key lies under `["orders"]` |
| QueryKeys.OrdersList | lib/queryKeys.ts:12-13 | `list(f)` is `lists()` extended by the filters |
| QueryKeys.OrdersDetails | lib/queryKeys.ts:14 | the details key lies under `["orders"]` |
| QueryKeys.OrdersDetail | lib/queryKeys.ts:15 | `detail(id)` is `details()` extended by the id |
| QueryKeys.OrdersStats | lib/queryKeys.ts:16 | the stats key lies under `["orders"]` |
| QueryKeys.OrdersRecent | lib/queryKeys.ts:17-18 | `recent(n)` lies under `["orders"]` and ends with n |
| QueryKeys.TasksByOrder | lib/queryKeys.ts:20-23 | `byOrder(id)` lies under `["tasks"]` and ends with the id |
| QueryKeys.OrdersKeysUnderAll | lib/queryKeys.ts:9-18 | every orders key has `["orders"]` as a prefix |
| QueryKeys.ListsAndDetailsDisjoint | lib/queryKeys.ts:11-18 | no detail, stats or recent key lies under `lists()`, and no list key lies under `details()` |
| QueryKeys.KeysInjective | lib/queryKeys.ts:12-22 | `detail`, `list`, `recent` and `byOrder` are injective |
| QueryKeys.TaskAndChartKeysSeparate | lib/queryKeys.ts:20-26 | task and chart keys never lie under `["orders"]`; `byOrder(a)` is a prefix of `byOrder(b)` iff a == b |
| QueryCache.SetData | hooks/queries/useOrdersQuery.ts:212 | writing data replaces one entry and freshens it; writing undefined changes nothing |
| QueryCache.UpdateUnder | hooks/queries/useOrdersQuery.ts:191-194 | an updater changes exactly the entries under the prefix where it yields data; the key set is kept |
| QueryCache.Invalidate | hooks/queries/useOrdersQuery.ts:200 | a key becomes stale iff it was stale or is cached under the prefix; data is untouched |
| QueryCache.Find | hooks/queries/useOrdersQuery.ts:186-188 | a snapshot lookup finds a key iff the snapshot holds it, with its recorded value |
| QueryCache.RestoreEntries | hooks/queries/useOrdersQuery.ts:210-214 | writing a snapshot back sets each snapshotted key that had data to that data and leaves every other entry alone |
| QueryCache.RollbackRestoresEntries | hooks/queries/useOrdersQuery.ts:186-214 | restoring a prefix snapshot after a prefix update gives back exactly the original entries |
| QueryCache.QueryClient.constructor | hooks/queries/useOrdersQuery.ts:78 | a new client holds no entries and nothing stale |
| QueryCache.QueryClient.GetQueryData | hooks/queries/useOrdersQuery.ts:121-123 | a cached key yields its data; an uncached key yields undefined |
| QueryCache.QueryClient.SetQueryData | hooks/queries/useOrdersQuery.ts:212 | the client's new state is `SetData` of the old one |
| QueryCache.QueryClient.SetQueriesData | hooks/queries/useOrdersQuery.ts:191-194 | the client's new state is `UpdateUnder` of the old one |
| QueryCache.QueryClient.InvalidateQueries | hooks/queries/useOrdersQuery.ts:200 | the client's new state is `Invalidate` of the old one |
| QueryCache.QueryClient.GetQueriesData | hooks/queries/useOrdersQuery.ts:186-188 | the snapshot lists every cached key under the prefix once, with its current data |
| QueryCache.QueryClient.RestoreQueries | hooks/queries/useOrdersQuery.ts:210-214 | the loop writes each snapshot pair back in order, as `Restore` specifies |
| OrdersQuery.OrderDetailQuery | hooks/queries/useOrdersQuery.ts:41-46 | the detail query uses `detail(id)` and is enabled iff the id is non-empty |
| OrdersQuery.MergeUpdateFields | hooks/queries/useOrdersQuery.ts:121-134 | supplied fields override and absent ones are kept; merging is idempotent, and an empty update is the identity |
| OrdersQuery.SetStatusWhere | hooks/queries/useOrdersQuery.ts:263-269 | same length and order; orders with the id get the status; no other field or order changes |
| OrdersQuery.DetailOf | hooks/queries/useOrdersQuery.ts:121-123 | reads the detail entry of an order, or undefined |
| OrdersQuery.UpdateTouchesOnlyDetail | hooks/queries/useOrdersQuery.ts:114-137 | the optimistic update changes only `detail(id)`, to the merge of its old value with the input; lists are untouched |
| OrdersQuery.UpdateFailureRestores | hooks/queries/useOrdersQuery.ts:149-169 | failure restores all entries; the detail key is invalidated on both success and failure |
| OrdersQuery.DeleteOptimisticEffect | hooks/queries/useOrdersQuery.ts:186-194 | every cached list loses exactly the orders with the id, in order; lists without data and all detail entries are unchanged |
| OrdersQuery.DeleteRemovesId | hooks/queries/useOrdersQuery.ts:191-194 | after the optimistic delete, no cached list holds the id |
| OrdersQuery.DeleteFailureRestores | hooks/queries/useOrdersQuery.ts:208-214 | writing the snapshot back makes every entry equal to its value before the mutation |
| OrdersQuery.StatusOptimisticDetail | hooks/queries/useOrdersQuery.ts:247-260 | a cached detail gets only the new status; a missing detail stays missing; no key is added or dropped |
| OrdersQuery.StatusOptimisticLists | hooks/queries/useOrdersQuery.ts:262-269 | every cached list sets the status on the orders with the id; a list without data stays without |
| OrdersQuery.StatusOptimisticOthers | hooks/queries/useOrdersQuery.ts:247-269 | every entry that is neither a list nor that detail keeps its data |
| OrdersQuery.StatusOptimisticEffect | hooks/queries/useOrdersQuery.ts:247-269 | the detail entry, when present, changes only its status; every list sets the status on matching ids; other keys are unchanged |
| OrdersQuery.StatusFailureRestoresOnlyDetail | hooks/queries/useOrdersQuery.ts:283-290 | failure restores the detail entry; lists keep their optimistic value; nothing becomes stale |
| OrdersQuery.StatusFailureKeepsOptimisticList | hooks/queries/useOrdersQuery.ts:263-290 | on a one-order cache, a failed status change leaves the list showing the new status, so the cache differs from its starting state |
| OrdersQuery.StatusFailureWithListRollbackRestores | hooks/queries/useOrdersQuery.ts:242-290 | a rollback that also wrote back a lists snapshot would restore every entry; this is the comparison for the previous row |
| OrdersQuery.SuccessInvalidatesAllOrders | hooks/queries/useOrdersQuery.ts:85 | after success, every cached key under `["orders"]` is stale, for all four mutations; see also lines 140, 200, 275 |
| OrdersQuery.CreateOrderMutation | hooks/queries/useOrdersQuery.ts:77-101 | success invalidates `["orders"]` and shows the created toast; failure changes nothing and shows the error |
| OrdersQuery.UpdateOrderMutation | hooks/queries/useOrdersQuery.ts:106-171 | the optimistic detail merge; success invalidates all orders and the detail key; failure restores the entries and invalidates the detail key |
| OrdersQuery.DeleteOrderMutation | hooks/queries/useOrdersQuery.ts:176-224 | snapshot the lists, then filter them; success invalidates `["orders"]`; failure writes the snapshot back, restoring every entry |
| OrdersQuery.UpdateOrderStatusMutation | hooks/queries/useOrdersQuery.ts:229-299 | the optimistic detail and list status; success invalidates `["orders"]`; failure restores the detail only |
| OrdersQuery.RestoreNeverInvalidates | hooks/queries/useOrdersQuery.ts:210-214 | writing a snapshot back never marks a key stale |
| TasksQuery.TasksQuerySpec | hooks/queries/useTasksQuery.ts:16-22 | the tasks query uses `byOrder(orderId)` and is enabled iff orderId is non-empty |
| TasksQuery.StrictIdEquality | hooks/queries/useTasksQuery.ts:76 | the number id n never equals a string id |
| TasksQuery.UpdateInList | hooks/queries/useTasksQuery.ts:73-80 | same length and ids; tasks with a strictly equal id get the supplied text and status; others are unchanged |
| TasksQuery.RemoveFromList | hooks/queries/useTasksQuery.ts:126-131 | an order-preserving subsequence holding exactly the tasks whose id differs |
| TasksQuery.RemoveKeepsOtherIdKind | hooks/queries/useTasksQuery.ts:128-130 | a string id never removes a numeric-id task, and a numeric id never removes a string-id task |
| TasksQuery.TasksOf | hooks/queries/useTasksQuery.ts:68-70 | reads the task list cached for an order, or undefined |
| TasksQuery.TaskOptimisticOnlyOwnKey | hooks/queries/useTasksQuery.ts:64-80 | only `byOrder(orderId)` changes, to the updated or filtered list; without a cached list nothing changes; see also lines 117-131 |
| TasksQuery.TaskFailureRestores | hooks/queries/useTasksQuery.ts:84-103 | after failure, every entry equals its pre-mutation value, and the order's key is stale; see also lines 141-160 |
| TasksQuery.WriteBackRestores | hooks/queries/useTasksQuery.ts:85-90 | writing back the one snapshotted entry restores a cache that differs only there; see also lines 142-147 |
| TasksQuery.CreateTaskMutation | hooks/queries/useTasksQuery.ts:27-55 | success only invalidates `byOrder(orderId)`; failure changes nothing |
| TasksQuery.UpdateTaskMutation | hooks/queries/useTasksQuery.ts:57-108 | optimistic overlay, then invalidation on success, or restore plus invalidation on failure |
| TasksQuery.DeleteTaskMutation | hooks/queries/useTasksQuery.ts:110-163 | optimistic removal, then invalidation on success, or restore plus invalidation on failure |
| UsersQuery.UsersPrefixCovers | hooks/queries/useUsersQuery.ts:11 | the list, per-user, stats and search keys all lie under `["users"]`; orders and tasks keys do not; see also lines 18, 30, 40, 82 |
| UsersQuery.UsersQuerySpec | hooks/queries/useUsersQuery.ts:16-22 | the list query uses `["users"]` and is always enabled |
| UsersQuery.UserQuerySpec | hooks/queries/useUsersQuery.ts:27-33 | the per-user query is enabled iff userId is non-empty |
| UsersQuery.UserStatsQuerySpec | hooks/queries/useUsersQuery.ts:38-44 | the stats query is always enabled |
| UsersQuery.SearchUsersQuerySpec | hooks/queries/useUsersQuery.ts:79-85 | search is enabled iff the query is non-empty |
| UsersQuery.UserMutation | hooks/queries/useUsersQuery.ts:49-74 | no entry ever changes; a returned result, even one carrying an error, invalidates `["users"]` |
| Errors.ErrorToast | hooks/queries/useOrdersQuery.ts:216-221 | the error toast is destructive and shows the error's message |
| Errors.Rethrow | services/ordersService.ts:94-103 | an error of the service's class passes through; anything else becomes that class with `UNKNOWN_ERROR` |
| Errors.RethrowIdempotent | services/ordersService.ts:94-103 | wrapping an already wrapped error changes nothing |
| Errors.HookMessage | hooks/useOrders.ts:45-49 | a hook shows the service error's message, or its fallback for any other error |
| Domain.Summary | hooks/useOrders.ts:65-78 | the summary keeps an order's id, status and amount |
| UseOrders.ReplaceById | hooks/useOrders.ts:99-113 | same length and order; entries with the returned id become its summary; others are unchanged |
| UseOrders.RemoveById | hooks/useOrders.ts:143-147 | an order-preserving subsequence holding exactly the orders with another id |
| UseOrders.ReplaceByIdKeepsIds | hooks/useOrders.ts:99-113 | replacing keeps every id in place, and is idempotent |
| UseOrders.ReplaceThenRemove | hooks/useOrders.ts:99-147 | deleting an id after updating it gives the same list as deleting it directly |
| UseOrders.CreateThenRemove | hooks/useOrders.ts:65-147 | deleting a just-created order undoes the prepend |
| UseOrders.OrdersState.constructor | hooks/useOrders.ts:34-38 | empty orders, loading, no error |
| UseOrders.OrdersState.FetchStart | hooks/useOrders.ts:41-42 | loading with the error cleared; orders kept |
| UseOrders.OrdersState.FetchSettled | hooks/useOrders.ts:43-51 | success replaces the orders; failure keeps them and records the message; loading ends either way |
| UseOrders.OrdersState.CreateOrder | hooks/useOrders.ts:60-92 | success prepends the summary and returns the order; failure keeps the list, records the error and returns null |
| UseOrders.OrdersState.UpdateOrder | hooks/useOrders.ts:94-127 | success replaces by id; failure keeps the list and records the error |
| UseOrders.OrdersState.DeleteOrder | hooks/useOrders.ts:139-157 | returns true iff the service succeeded; only then are the orders with that id removed |
| UseOrders.OrderDetailState.constructor | hooks/useOrders.ts:181-186 | no order, loading, no error |
| UseOrders.OrderDetailState.FetchStart | hooks/useOrders.ts:188-193 | an empty id gives no call, no order, not loading, "Order ID is required"; otherwise loading |
| UseOrders.OrderDetailState.FetchSettled | hooks/useOrders.ts:194-204 | success stores the order; failure clears it and records the message |
| UseOrders.OrderDetailState.UpdateOrder | hooks/useOrders.ts:213-224 | success replaces the order; failure keeps it and records the error |
| UseOrders.StatsState.constructor | hooks/useOrders.ts:273-282 | all-zero stats, loading, no error |
| UseOrders.StatsState.FetchStart | hooks/useOrders.ts:285-286 | loading with the error cleared; stats kept |
| UseOrders.StatsState.FetchSettled | hooks/useOrders.ts:288-300 | success replaces the stats; failure keeps them and records the message |
| UseTasks.ReplaceTask | hooks/useTasks.ts:84-89 | same length and order; tasks with a strictly equal id become the returned task |
| UseTasks.RemoveTask | hooks/useTasks.ts:111-116 | an order-preserving subsequence holding exactly the tasks with a strictly unequal id |
| UseTasks.LastWithId | hooks/useTasks.ts:136-139 | the `Map` lookup: none iff no result has the id; otherwise a result with the id after which no result has it, so the last one |
| UseTasks.BulkReplaced | hooks/useTasks.ts:136-141 | same length and ids; a task with a same-id result becomes the last such result, and a task without one is unchanged |
| UseTasks.IdMap | hooks/useTasks.ts:137 | the map holds an id exactly when some result has it, and then the last result with it |
| UseTasks.BulkReplace | hooks/useTasks.ts:136-141 | the loop's list is the bulk replacement of the tasks |
| UseTasks.BulkOfOneIsReplace | hooks/useTasks.ts:84-89 | a bulk update with one result is the single update; see also lines 136-141 |
| UseTasks.ReplaceThenRemove | hooks/useTasks.ts:84-116 | deleting an id after updating it equals deleting it directly |
| UseTasks.TasksState.constructor | hooks/useTasks.ts:22-26 | no tasks, loading, no error |
| UseTasks.TasksState.FetchStart | hooks/useTasks.ts:28-34 | an empty orderId gives no call, no tasks, not loading, "Order ID is required"; otherwise loading |
| UseTasks.TasksState.FetchSettled | hooks/useTasks.ts:35-47 | success replaces the tasks; failure keeps them and records the message |
| UseTasks.TasksState.CreateTask | hooks/useTasks.ts:53-74 | success appends the new task; failure keeps the list, records the error and returns null |
| UseTasks.TasksState.UpdateTask | hooks/useTasks.ts:78-101 | success replaces by strict id; failure keeps the list and records the error |
| UseTasks.TasksState.DeleteTask | hooks/useTasks.ts:105-126 | returns true iff the service succeeded; only then are the tasks with the id removed |
| UseTasks.TasksState.BulkUpdateTasks | hooks/useTasks.ts:130-154 | success applies the bulk replacement; failure keeps the list and records the error |
| UseChartData.ChartDataState.constructor | hooks/useChartData.ts:21-25 | no data, loading, no error |
| UseChartData.ChartDataState.FetchStart | hooks/useChartData.ts:28 | loading with the error cleared; data kept |
| UseChartData.ChartDataState.FetchSettled | hooks/useChartData.ts:30-38 | success replaces the data; failure keeps it and records the chart error's message or "Failed to fetch chart data" |
| OrdersService.ToOrderDetail | services/ordersService.ts:38-52 | every column is copied; notes are "" iff the column is missing or empty |
| OrdersService.ToOrder | services/ordersService.ts:27-36 | the list transform is the summary of the detail transform |
| OrdersService.DetailTransformRoundTrip | services/ordersService.ts:27-52 | the transform loses nothing but the null/empty distinction of notes |
| OrdersService.PlanFetchOrders | services/ordersService.ts:57-74 | newest first; a status filter only when one is given; the search is `%q%` over client name, project type and id |
| OrdersService.PlanRecentOrders | services/ordersService.ts:294-298 | deadline ascending with the limit and no filters |
| OrdersService.ListResult | services/ordersService.ts:76-103 | a backend error keeps its code; null data is []; rows are transformed in order and must all validate |
| OrdersService.FetchOrders | services/ordersService.ts:55-104 | "Failed to fetch orders" with the backend code; null data gives [] |
| OrdersService.FetchRecentOrders | services/ordersService.ts:292-326 | "Failed to fetch recent orders" with the backend code; null data gives [] |
| OrdersService.SingleRowError | services/ordersService.ts:115-126 | `PGRST116` becomes `NOT_FOUND` with "Order with ID <id> not found"; other codes are kept; see also lines 232-243 |
| OrdersService.DetailResult | services/ordersService.ts:106-140 | a single row is transformed and must validate; an invalid row is an unexpected error |
| OrdersService.FetchOrderById | services/ordersService.ts:106-140 | no row gives `NOT_FOUND`; other codes give "Failed to fetch order"; success is the validated transform |
| OrdersService.InsertRecord | services/ordersService.ts:150-159 | the insert copies the validated input and stores missing notes as "" |
| OrdersService.CreateOrder | services/ordersService.ts:142-187 | an invalid input is an unexpected error; a backend error keeps its code; success is a valid detail |
| OrdersService.BuildOrderUpdate | services/ordersService.ts:197-222 | builds the column record field by field |
| OrdersService.PatchAgreesWithOverlay | services/ordersService.ts:197-222 | the written columns are exactly the defined fields; applying them agrees with the cache's optimistic merge; an empty update writes nothing |
| OrdersService.StatusInput | services/ordersService.ts:259-264 | the status update defines exactly the status field |
| OrdersService.UpdateOrder | services/ordersService.ts:189-257 | validation first, then the patch sent for the row whose id is the input's id; no row gives `NOT_FOUND`; success is a valid detail |
| OrdersService.UpdateOrderStatus | services/ordersService.ts:259-264 | it is `updateOrder({id, status})` |
| OrdersService.DeleteOrder | services/ordersService.ts:266-290 | succeeds iff the backend did; otherwise "Failed to delete order" with the code |
| OrdersService.CountStatus | services/ordersService.ts:360-365 | a status count never exceeds the row count |
| OrdersService.RevenueAppend | services/ordersService.ts:366 | revenue is additive over concatenated rows |
| OrdersService.FetchOrderStats | services/ordersService.ts:328-378 | no data gives all zeros; otherwise the row count, the four status counts and the summed amounts |
| OrdersService.StatusCountsSum | services/ordersService.ts:347-367 | when every status is valid, the four counts sum to the row count |
| OrdersService.StatsCountsAddUp | services/ordersService.ts:347-367 | when every status is valid, pending + in progress + completed + cancelled == total |
| TasksService.ToTask | services/tasksService.ts:22-31 | the id is numeric; order_id, created_at and updated_at are renamed |
| TasksService.TaskTransformRoundTrip | services/tasksService.ts:22-31 | the transform is invertible on rows, and on tasks with numeric ids and all fields present |
| TasksService.RowId | services/tasksService.ts:130 | the row is matched by `Number(id)`; a numeric id is itself |
| TasksService.TaskResult | services/tasksService.ts:134-149 | a single row is transformed and must validate; a backend error is mapped by the caller's rule |
| TasksService.FetchTasksByOrderId | services/tasksService.ts:34-68 | "Failed to fetch tasks" with the code; null data gives []; rows are transformed in order |
| TasksService.InsertRecord | services/tasksService.ts:78-82 | the insert is exactly order_id, text and status |
| TasksService.InsertedRowMatchesInput | services/tasksService.ts:70-109 | the created row's task carries the input's order, text and status, and is valid when the input is |
| TasksService.CreateTask | services/tasksService.ts:70-109 | an invalid input is an unexpected error; a backend error keeps its code; success is a valid task |
| TasksService.BuildTaskUpdate | services/tasksService.ts:119-126 | writes exactly whichever of text and status are defined |
| TasksService.UpdateError | services/tasksService.ts:134-140 | `PGRST116` becomes `NOT_FOUND` with "Task with ID <id> not found"; other codes give "Failed to update task" |
| TasksService.UpdateTask | services/tasksService.ts:111-160 | validation first, then the patch matched by `Number(id)`; errors mapped; success is a valid task |
| TasksService.NotFoundMessageShowsNumber | services/tasksService.ts:135-139 | a numeric id appears in decimal in the not-found message |
| TasksService.DeleteTask | services/tasksService.ts:162-186 | succeeds iff the backend did; otherwise "Failed to delete task" with the code |
| TasksService.BulkUpdateTasks | services/tasksService.ts:188-202 | succeeds iff every update did, with one result per input in input order; otherwise fails with one of the errors |
| TasksService.BulkErrorIsTaskServiceError | services/tasksService.ts:192-200 | a task-service error from one update passes the outer wrapper unchanged |
| UsersService.ParseProfiles | services/usersService.ts:31 | every row must be a valid profile; the first invalid one gives the error |
| UsersService.UserList | services/usersService.ts:24-31 | a backend error is rethrown with the method's prefix; null data is [] |
| UsersService.NewestFirst | services/usersService.ts:19-22 | the profiles query is newest first with the given filters |
| UsersService.GetAllUsers | services/usersService.ts:17-36 | "Failed to fetch users: " plus the message on error; [] on null data |
| UsersService.SearchUsers | services/usersService.ts:123-142 | the search filter query; "Failed to search users: " on error |
| UsersService.GetUsersByRole | services/usersService.ts:147-166 | the role filter query; "Failed to fetch users by role: " on error |
| UsersService.GetUserById | services/usersService.ts:41-60 | a valid profile, or null on any failure |
| UsersService.RoleWrite | services/usersService.ts:69-78 | the write is exactly role and updated_at on the user's row |
| UsersService.UpdateUserRole | services/usersService.ts:65-92 | returns an error iff the backend failed, with its message; never throws |
| UsersService.DeleteUserProfile | services/usersService.ts:99-118 | returns an error iff the backend failed; never throws |
| UsersService.CountRole | services/usersService.ts:187-188 | a role count never exceeds the row count |
| UsersService.GetUserStats | services/usersService.ts:171-196 | all zeros on error or no data; otherwise the row count and the admin and user counts |
| UsersService.CountRoleCons | services/usersService.ts:187-188 | the role count of a non-empty list splits at its head |
| UsersService.RoleCountsWithin | services/usersService.ts:185-189 | admins + users <= total, with equality when every role is valid |
| UsersService.StatsWithinTotal | services/usersService.ts:171-196 | the returned stats have admins + users <= total, with equality on valid roles |
| ChartService.ToPoint | services/chartDataService.ts:44-49 | name, average and today are copied |
| ChartService.FetchWeeklyChartData | services/chartDataService.ts:16-62 | an error keeps its code; null or empty data gives the fixed week; otherwise one point per row in order |
| ChartService.FallbackWeekDays | services/chartDataService.ts:32-42 | the fallback is seven points named Mon..Sun in order |
| ChartService.AtMostSevenPoints | services/chartDataService.ts:18-22 | with the 7-row limit, the chart has between 1 and 7 points |
| AuthService.AvatarExtension | services/authService.ts:311-312 | the path is `<userId>/<timestamp>.<ext>`, where ext is the suffix after the last dot, or the whole name without one |
| AuthService.UploadAvatar | services/authService.ts:285-340 | a bad MIME type is rejected before the size check; more than 5 MiB is rejected; otherwise upload, then the public URL |
| AuthService.RejectedFileNotUploaded | services/authService.ts:291-308 | a rejected file fails whatever storage would do, so storage is never called |
| AuthService.AvatarPath | services/authService.ts:348-353 | no path iff "/avatars/" is absent; otherwise the text after its first occurrence up to the next one or the end |
| AuthService.AvatarPathRoundTrip | services/authService.ts:348-353 | the path is recovered from `<base>/avatars/<path>` |
| AuthService.DeleteAvatar | services/authService.ts:345-372 | "Invalid avatar URL" without the marker; otherwise the storage result |
| AuthService.UploadThenDeleteRemovesStoredPath | services/authService.ts:285-372 | deleting an uploaded avatar's URL removes exactly the stored path |
| AuthService.BuildProfileUpdate | services/authService.ts:239-249 | always updated_at; full_name and avatar_url only when given; never email or role |
| AuthService.UpdateProfile | services/authService.ts:229-280 | "No user logged in" without a user; the email update runs iff the row write succeeded and a different email was given |
| AuthService.NewProfileRecord | services/authService.ts:174-178 | a created profile has role "user" and the metadata's full name or "" |
| AuthService.ParsedProfile | services/authService.ts:195 | a row counts only when it parses as a profile; see also line 207 |
| AuthService.GetCurrentProfile | services/authService.ts:153-212 | no user or another error gives null; `PGRST116` creates the profile; the result always validates |
| AuthService.CreatedProfileIsNotAdmin | services/authService.ts:167-199 | a just-created profile is never an admin; see also lines 217-224 |
| AuthService.AdminHasUser | services/authService.ts:217-224 | `isAdmin` holds only with a signed-in user and a valid profile |
| Schemas.Check | types/schemas.ts:29-36 | a rule gives one issue on its field exactly when it fails |
| Schemas.OrderIssues | types/schemas.ts:17-36 | no issues iff non-empty id, client and project, a known status and amount > 0 |
| Schemas.OrderDetailIssues | types/schemas.ts:43-49 | the order rules plus email and description; no issues iff valid |
| Schemas.CreateOrderIssues | types/schemas.ts:56-60 | no issues iff valid without an id and with a non-empty description |
| Schemas.ParseCreateOrder | types/schemas.ts:56-60 | parsing succeeds iff valid and defaults missing notes to "" |
| Schemas.UpdateOrderIssues | types/schemas.ts:67-77 | a non-empty id; each other field is checked only when present |
| Schemas.UpdateOrderFieldsOptional | types/schemas.ts:67-77 | dropping every optional field keeps an update valid, and so does an empty description |
| Schemas.TaskIssues | types/schemas.ts:88-102 | no issues iff the text is non-empty and the status is one of three |
| Schemas.CreateTaskIssues | types/schemas.ts:109-115 | the task rules plus a non-empty orderId |
| Schemas.UpdateTaskIssues | types/schemas.ts:122-126 | text and status are checked only when present |
| Schemas.FormatIssues | types/schemas.ts:199-202 | one "path.joined: message" item per issue, in order |
| Schemas.ValidateData | types/schemas.ts:191-211 | success returns the parsed value; otherwise a plain error with the formatted message |
| Schemas.ValidateEach | services/ordersService.ts:90-93 | a list validates iff every element does; otherwise the first failing element's message; the same per-row map is at services/tasksService.ts lines 54-57 |
| Schemas.SafeValidateData | types/schemas.ts:216-231 | never throws: success with the data exactly when there is no issue; otherwise the list `validateData` would join, item k being "path: message" of issue k |
| Schemas.SafeAgreesWithValidate | types/schemas.ts:191-231 | both succeed on the same inputs; the thrown message is the safe error list joined by ", " |
| Schemas.SingleIssueMessage | types/schemas.ts:199-206 | one issue gives "Validation failed for <ctx>: <field>: <message>" |
| Schemas.EmptyTaskTextMessage | types/schemas.ts:97 | an empty task text gives "Validation failed for task: text: Task text is required"; see also lines 191-211 |
| AuthSchemas.SignUpIssues | types/auth.ts:47-66 | no issues iff valid; a password mismatch is the last issue, on confirmPassword |
| AuthSchemas.SignUpPasswordBounds | types/auth.ts:50-53 | with the other fields valid, sign-up is valid iff 8 <= password length <= 72 |
| AuthSchemas.SignInIssues | types/auth.ts:74-77 | no issues iff a valid email and a non-empty password |
| AuthSchemas.ProfileIssues | types/auth.ts:21-29 | no issues iff the profile schema holds |
| AuthSchemas.UpdateProfileIssues | types/auth.ts:94-102 | every field optional; full_name length 2..100 when present |
| AuthSchemas.EmptyUpdateProfileValid | types/auth.ts:94-102 | the empty profile update is valid |
| AuthSchemas.UpdateUserRoleIssues | types/auth.ts:109-112 | a UUID user id and a known role |
| AuthSchemas.NewAuthError | types/auth.ts:120-125 | an auth error carries the message and the optional code |
| AuthSchemas.Unauthorized | types/auth.ts:127-132 | code UNAUTHORIZED with "Unauthorized access" by default |
| AuthSchemas.Forbidden | types/auth.ts:134-139 | code FORBIDDEN with "Forbidden: Insufficient permissions" by default |
| AuthSchemas.UnauthorizedIsNotForbidden | types/auth.ts:127-139 | the two errors are never equal |
| StaticOrders.UnknownOrder | data/orders.ts:195-206 | the default carries the id, status Pending and amount 0 |
| StaticOrders.GetOrderById | data/orders.ts:193-208 | a known id gives its stored detail; an unknown id gives the default; the id always matches |
| StaticOrders.TableKeyedById | data/orders.ts:86-191 | every stored detail is filed under its own id |
| StaticOrders.TablesAgree | data/orders.ts:19-191 | every listed order has a detail with the same summary fields |
| StaticOrders.DetailsAreListed | data/orders.ts:19-191 | every detail is listed |
| StaticOrders.OrdersWellFormed | data/orders.ts:19-84 | ids are unique, amounts positive and statuses valid |
| StaticOrders.LookupOfListedOrder | data/orders.ts:19-195 | looking up a listed order gives back its summary |
| UiStore.Partialize | store/uiStore.ts:63-66 | only sidebarCollapsed is persisted |
| UiStore.PersistedIgnoresOtherFields | store/uiStore.ts:63-66 | states with the same sidebar flag persist identically |
| UiStore.UiStore.constructor | store/uiStore.ts:40-58 | expanded sidebar, closed menu, no filters, no modal |
| UiStore.UiStore.SetSidebarCollapsed | store/uiStore.ts:41 | sets exactly the flag |
| UiStore.UiStore.ToggleSidebar | store/uiStore.ts:42-43 | flips only the sidebar flag |
| UiStore.UiStore.SetMobileMenuOpen | store/uiStore.ts:47 | sets only the menu flag; the persisted state is unchanged |
| UiStore.UiStore.ToggleMobileMenu | store/uiStore.ts:48-49 | flips only the menu flag |
| UiStore.UiStore.SetOrderFilters | store/uiStore.ts:53 | replaces the filters wholesale |
| UiStore.UiStore.ClearOrderFilters | store/uiStore.ts:54 | the filters become {} |
| UiStore.UiStore.OpenModal | store/uiStore.ts:58 | its id becomes the one active modal |
| UiStore.UiStore.CloseModal | store/uiStore.ts:59 | no modal is active |
| UiStore.ToggleSidebarTwice | store/uiStore.ts:42-43 | toggling twice restores the whole state |
| OrdersPage.InProgressSlug | app/dashboard/orders/page.tsx:31-34 | "In Progress" slugs to "in-progress" |
| OrdersPage.OneWordSlugs | app/dashboard/orders/page.tsx:31-34 | the other statuses slug to their lower case |
| OrdersPage.FilteredOrders | app/dashboard/orders/page.tsx:27-45 | an order-preserving subsequence holding exactly the orders that pass both filters; "all" and "" disable them |
| OrdersPage.FiltersCommute | app/dashboard/orders/page.tsx:30-43 | applying the search first and the status second gives the same result |
| OrdersPage.InProgressSlugSelects | app/dashboard/orders/page.tsx:31-34 | "in-progress" selects exactly the In Progress orders; see also lines 91-95 |
| RecentOrders.SortedPairwise | components/dashbard/Orders.tsx:34-37 | sortedness holds for every pair |
| RecentOrders.Insert | components/dashbard/Orders.tsx:34-38 | inserting keeps the list sorted and adds exactly one element |
| RecentOrders.SortByDistance | components/dashbard/Orders.tsx:33-38 | a sorted permutation of the input |
| RecentOrders.GetRecentOrders | components/dashbard/Orders.tsx:31-40 | min(5, n) orders in non-decreasing distance from today, drawn from the input, none farther than any omitted one |
| RecentOrders.PrefixNoFartherThanRest | components/dashbard/Orders.tsx:39 | a sorted prefix is no farther than the rest |
| RecentOrders.StatusRank | components/dashbard/Orders.tsx:81-94 | a rank 0..3 exactly for the four statuses |
| RecentOrders.CompareStatus | components/dashbard/Orders.tsx:81-94 | a comparison exists iff both statuses are known |
| RecentOrders.CompareStatusIsOrder | components/dashbard/Orders.tsx:81-94 | 0 iff equal; antisymmetric; Pending < In Progress < Completed < Cancelled |
| LocalTaskBoard.TasksByStatus | components/dashbard/TaskBoard.tsx:83-85 | an order-preserving column of exactly the tasks with that status |
| LocalTaskBoard.ColumnCons | components/dashbard/TaskBoard.tsx:83-85 | a column's size splits at the list's head |
| LocalTaskBoard.OneColumnPerStatus | components/dashbard/TaskBoard.tsx:83-85 | each status belongs to exactly one column |
| LocalTaskBoard.ColumnSizesAddUp | components/dashbard/TaskBoard.tsx:83-85 | the three column sizes sum to the task count |
| LocalTaskBoard.ColumnOfEachTask | components/dashbard/TaskBoard.tsx:83-85 | a task is in a column iff it has that status |
| LocalTaskBoard.TaskBoard.constructor | components/dashbard/TaskBoard.tsx:38-42 | the given tasks, empty inputs, nothing dragged |
| LocalTaskBoard.TaskBoard.SetInput | components/dashbard/TaskBoard.tsx:39-41 | sets one column's input only |
| LocalTaskBoard.TaskBoard.AddTask | components/dashbard/TaskBoard.tsx:49-58 | blank text does nothing; otherwise appends one trimmed task and clears that input |
| LocalTaskBoard.TaskBoard.DeleteTask | components/dashbard/TaskBoard.tsx:60-62 | removes all tasks with the id, keeping the order |
| LocalTaskBoard.TaskBoard.DragStart | components/dashbard/TaskBoard.tsx:64-66 | remembers the dragged task |
| LocalTaskBoard.TaskBoard.HandleDrop | components/dashbard/TaskBoard.tsx:72-81 | nothing without a dragged task; otherwise sets the status of tasks with its id, keeps the length and clears the drag |
| DashboardTaskBoard.TasksByStatus | components/dashboard/TaskBoard.tsx:136-138 | an order-preserving column of exactly the tasks with that status |
| DashboardTaskBoard.ColumnCons | components/dashboard/TaskBoard.tsx:136-138 | a column's size splits at the list's head |
| DashboardTaskBoard.ColumnSizes | components/dashboard/TaskBoard.tsx:136-138 | columns never hold more than the tasks, and partition them when every status is valid |
| DashboardTaskBoard.TaskBoard.constructor | components/dashboard/TaskBoard.tsx:60-65 | empty inputs, nothing dragged, no dialog |
| DashboardTaskBoard.TaskBoard.SetInput | components/dashboard/TaskBoard.tsx:60-62 | sets one column's input only |
| DashboardTaskBoard.TaskBoard.AddTask | components/dashboard/TaskBoard.tsx:67-84 | blank text sends nothing; otherwise sends the trimmed text, status and orderId, and clears the input only on success |
| DashboardTaskBoard.TaskBoard.OpenEditDialog | components/dashboard/TaskBoard.tsx:90-93 | the task and its text go into the dialog |
| DashboardTaskBoard.TaskBoard.CloseEditDialog | components/dashboard/TaskBoard.tsx:95-98 | no task is being edited and the text is "" |
| DashboardTaskBoard.TaskBoard.SaveEditedTask | components/dashboard/TaskBoard.tsx:100-112 | nothing without a task or with blank text; otherwise sends only the id and trimmed text, closing on success |
| DashboardTaskBoard.TaskBoard.DragStart | components/dashboard/TaskBoard.tsx:114-116 | remembers the dragged task |
| DashboardTaskBoard.TaskBoard.HandleDrop | components/dashboard/TaskBoard.tsx:122-134 | nothing without a dragged task; otherwise sends only the id and status, clearing the drag on success |
| Sidebar.NavData | components/dashboard/Sidebar.tsx:92-112 | nothing while loading; otherwise the items in declaration order, each shown iff it is not admin-only or the user is an admin; see also lines 146-148 |
| Sidebar.NavByRole | components/dashboard/Sidebar.tsx:92-112 | an admin sees all four items; anyone else sees only Chat |
| Sidebar.IsActive | components/dashboard/Sidebar.tsx:155 | a link is active iff its href is the active path |
| Sidebar.AtMostOneActive | components/dashboard/Sidebar.tsx:92-112 | at most one link is active at a time; see also line 155 |
| Sidebar.SidebarState.constructor | components/dashboard/Sidebar.tsx:131-133 | the panel is active and the sidebar is expanded |
| Sidebar.SidebarState.IsCollapsed | components/dashboard/Sidebar.tsx:135-138 | the external value when given, else the internal one |
| Sidebar.SidebarState.PathnameChanged | components/dashboard/Sidebar.tsx:141-143 | the active link follows the pathname |
| Sidebar.SidebarState.ToggleCollapsed | components/dashboard/Sidebar.tsx:139 | asks the parent's setter for the opposite value when there is one, else flips the internal flag; see also line 254 |
| Header.FirstChars | components/dashboard/Header.tsx:25-27 | at most one character per word; nothing from empty words |
| Header.SplitAfterWord | components/dashboard/Header.tsx:25 | splitting at spaces peels off the first word |
| Header.SplitWithoutSpace | components/dashboard/Header.tsx:25 | a word without spaces splits into itself |
| Header.Initials | components/dashboard/Header.tsx:23-31 | the uppercased word initials cut to 2; else the email's first two characters uppercased; else "U"; never more than 2 |
| Header.TwoWordInitials | components/dashboard/Header.tsx:23-29 | "first last" gives the two uppercased initials |
| Header.SpacesOnlyGiveNoInitials | components/dashboard/Header.tsx:25-29 | an all-space name gives "" |
| Header.AllPiecesEmpty | components/dashboard/Header.tsx:25 | splitting spaces gives only empty words |
| SettingsPage.MessageOr | app/dashboard/settings/page.tsx:110-111 | the service message, or the fallback when it is empty |
| SettingsPage.ProfileFormIssues | app/dashboard/settings/page.tsx:34-37 | no issues iff the name is 2..100 characters and the email valid; a short name is the first issue |
| SettingsPage.ProfileFormMeetsServiceSchema | app/dashboard/settings/page.tsx:34-37 | a valid form is a valid profile update for the service |
| SettingsPage.PasswordFormIssues | app/dashboard/settings/page.tsx:39-48 | no issues iff a current password, a new one of 8+ and confirm == new; the mismatch is last, on confirmPassword |
| SettingsPage.MismatchIsFirstWhenFieldsPass | app/dashboard/settings/page.tsx:39-48 | with the field rules met, the mismatch is the only issue |
| SettingsPage.NullNameAlwaysChanged | app/dashboard/settings/page.tsx:98-101 | a profile without a name never counts as unchanged |
| SettingsPage.Initial | app/dashboard/settings/page.tsx:58-59 | a missing field starts as "" |
| SettingsPage.SettingsForm.constructor | app/dashboard/settings/page.tsx:52-64 | the fields start from the profile; passwords empty; nothing in progress |
| SettingsPage.SettingsForm.ProfileChanged | app/dashboard/settings/page.tsx:66-72 | a loaded profile refills name and email; nothing else changes |
| SettingsPage.SettingsForm.HandleProfileUpdate | app/dashboard/settings/page.tsx:86-127 | the first issue on invalid input; "No changes to save" when unchanged; otherwise sends name and email and reports the result |
| SettingsPage.SettingsForm.HandlePasswordUpdate | app/dashboard/settings/page.tsx:129-165 | sends only the new password, once the form validates; success clears all three fields |
| SettingsPage.HandleAvatarUpload | app/dashboard/settings/page.tsx:167-214 | aborts without a file or profile; deletes the old avatar only when set; then upload, then save the URL, reporting each failure |
| ChatPage.FilteredContacts | app/dashboard/chat/page.tsx:60-64 | an order-preserving subsequence holding exactly the contacts whose name or email contains the query, ignoring case |
| ChatPage.EmptySearchKeepsAll | app/dashboard/chat/page.tsx:60-64 | an empty search keeps every contact |
| ChatPage.SameLowerSameContacts | app/dashboard/chat/page.tsx:60-64 | any two queries with the same lowercase select the same contacts |
| ChatPage.SearchIgnoresCase | app/dashboard/chat/page.tsx:60-64 | for every contact list and query, the uppercased and the lowercased query select what the query selects |
| ChatPage.ChatState.constructor | app/dashboard/chat/page.tsx:34-44 | the greeting only, empty input, not typing, so the typing invariant holds |
| ChatPage.ChatState.SetInput | app/dashboard/chat/page.tsx:309-312 | sets the input only; callable only while the bot is not typing, since the input is disabled then |
| ChatPage.ChatState.SetSearchQuery | app/dashboard/chat/page.tsx:44 | sets the search only |
| ChatPage.ChatState.SendMessage | app/dashboard/chat/page.tsx:74-88 | blank input changes nothing; otherwise appends one user message with the untrimmed text, clears the input and starts typing |
| ChatPage.ChatState.BotReply | app/dashboard/chat/page.tsx:91-100 | appends one bot message and stops typing, which re-establishes the typing invariant |
| ChatPage.SendThenReply | app/dashboard/chat/page.tsx:74-101 | in any state where typing implies an empty input, a send happens iff the input is not blank, which is iff the send button is enabled; it then adds exactly the user's message and the reply and keeps that invariant; see also lines 312-317 |
| AuthRedirects.CallbackPath | app/auth/callback/route.ts:16-70 | one of five targets; the panel iff a code's exchange yields an admin |
| AuthRedirects.CallbackRedirect | app/auth/callback/route.ts:16 | every redirect is the request's origin followed by a path; see also lines 28, 48-50, 60, 64, 70 |
| AuthRedirects.CallbackSignInCases | app/auth/callback/route.ts:18-29 | sign-in iff no code; authentication_failed iff the exchange failed; unexpected_error iff a step threw; see also lines 61-70 |
| AuthRedirects.SignedInReachDashboard | app/auth/callback/route.ts:37-60 | past the exchange, admins reach the panel and everyone else the chat |
| AuthRedirects.AdminOnly | hooks/useAdminOnly.ts:16-28 | no redirect while loading; strangers go to sign-in; non-admins go to the chat; the flags are returned unchanged |
| AuthRedirects.RequireAuth | hooks/useRequireAuth.ts:13-29 | no redirect while loading; no user goes to sign-in; a required admin check sends non-admins to the panel |
| AuthRedirects.DefaultGateLetsUsersIn | hooks/useRequireAuth.ts:13 | by default a signed-in user is never redirected |
| AuthRedirects.GatesAgreeExceptOnNonAdmins | hooks/useAdminOnly.ts:17-23 | the two gates agree except on signed-in non-admins, sent to the chat by one and the panel by the other |

## Left out

- Network, auth sessions, OAuth exchange and storage are not modelled. Each backend call is a parameter answering with rows or an error.
- The query library's internals are not modelled: `cancelQueries`, refetching, `staleTime`/`gcTime` and re-renders. Invalidation only marks cached keys stale.
- Overlapping mutations and the `Promise.all` parallelism of `bulkUpdateTasks` are not modelled. Every step runs sequentially, and the per-task results are an input.
- Timing is not modelled: the chat bot's reply delay and the scroll effect. The reply is a separate step.
- The clock is not modelled. `Date.now()` ids and timestamps are parameters, so the model does not show local board ids are fresh.
- Date parsing is not modelled. Deadlines map to day numbers through a parameter, and invalid dates (`NaN`) are not modelled.
- RecentOrders.GetRecentOrders: does not state which of several equally distant orders come first, since the JavaScript sort's stability is not modelled.
- Amounts are `real` with no rounding. `parseFloat`, `Number()` coercion and `Intl` formatting are not modelled.
- `ChartDataSchema` validation always succeeds on the typed rows, since the model has no non-numeric averages.
- Letter case uses ASCII case mapping only.
- Format checks are uninterpreted `Formats` functions: email, URL and UUID syntax.
- zod's own default messages are stand-in texts. The model does not fix their wording.
- Toasts are returned values, and navigation is a returned redirect target.
- `refreshProfile` after a settings update is not modelled.
- The `console` logging is not modelled.
- SettingsPage.HandleAvatarUpload: the outer catch is not modelled. It shows "Failed to upload profile picture" for exceptions thrown inside the service calls. The `deleteAvatar` result is ignored here, as on the page.
- The settings page's `getUserInitials` and the chat page's initials helpers are the same expression as `Header.Initials`, so they are not repeated.
- The settings page's input setters just assign a field.
- `StaticOrders.GetOrderById` treats the table as a map and does not model JavaScript prototype keys such as `"constructor"`.
- The list, recent and stats order queries and the auth `PasswordResetSchema` are not modelled. The queries are always-enabled key-plus-fetch pairs, and the schema is a single email rule no core operation uses.
- `useRequireAuth` sends non-admins to `/dashboard/panel` while `useAdminOnly` sends them to `/dashboard/chat`. This is modelled as written (`AuthRedirects.GatesAgreeExceptOnNonAdmins`).
