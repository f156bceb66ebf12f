# gu: connection pools and helpers, modelled in Dafny

This project models the core of `gu` and `gnet`, a small Python 2 toolkit built on gevent. Its centre is one pool design, written four times:

- `gnet/gconnectionpool.py`: a generic connection pool.
- `gnet/mysql/pool.py`: a threaded MySQL pool.
- `gnet/mysql/gpool.py`: a gevent MySQL pool.
- `gnet/db/gmysql.py`: an `umysql` pool with numeric operation codes.

Each pool holds `n` connections. Each connection has its own FIFO queue and one worker draining that queue. A call is routed by `_selectq`:

- to the queue it names (`qid >= 0`);
- otherwise to the shortest queue, with ties going to the lowest index, as Python's `min` breaks them.

The call appends one task to that queue. The task carries a result cell, or `None` for a fire-and-forget call. A worker:

- takes the head task, with a destructive `get`, or with `peek` and then `next` after the task has run;
- runs the task against its connection;
- puts the value or the exception into the cell.

Around the pools the project also models:

- The MySQL connection classes (`gnet/mysql/client.py`): how `MySQLdbConnection` builds its connect arguments, and their reconnect-and-retry-once-or-`False` contract.
- `gmysql.py`'s result shaping and operation-code dispatch.
- `shorten` (`gu/util.py`).
- The wrap-around session counter of `gu/protocol.py`.

Modules, one per source file, plus three shared ones:

| module | models |
|---|---|
| `Py` | Python values, exceptions, truthiness, `dict(zip(...))` |
| `Routing` | `_selectq`, `put` and a left-to-right batch of submissions, shared by all pools |
| `GeventFuture` | the part of gevent's `AsyncResult` the gevent pools use |
| `ConnectionPool` | `gnet/gconnectionpool.py` |
| `MySQLClient` | `gnet/mysql/client.py` |
| `PoolConfig` | constructor checks and operation lookup shared by `gnet/mysql/pool.py` and `gnet/mysql/gpool.py` |
| `ThreadedPool` | `gnet/mysql/pool.py`, including its own `AsyncResult` |
| `GeventPool` | `gnet/mysql/gpool.py` |
| `GMySQL` | `gnet/db/gmysql.py` |
| `Util` | `shorten` in `gu/util.py` |
| `SessionIds` | `id_generator` and `Protocol.session_id` in `gu/protocol.py` |

How scheduling and the environment are modelled:

- **Atomic steps.** A submission is one atomic method, and so is a worker iteration. In the peek/next pools the iteration has two halves:
  - `Begin` peeks the head task;
  - `Finish` reports the result and removes the task.
  Between the two, the running task still counts in its queue's size.
- **Driver replies are parameters.** Whatever the database driver or connection answered comes in as a parameter: an `Outcome`, a `Reply`, or the result of a retry.
- **Reconnect attempts are counted.** A reconnect loop takes the number of failed attempts before the one that succeeds.
- **Driver state is a log.** Opened driver handles are numbered. The statements sent to them are recorded in a ghost log, so the retry's target connection can be stated.

Where the code and its docstrings disagree, the model follows the code. Its behaviour in the following places is modelled as written:

- **`fetchone` with several rows.** It returns `None` when there is more than one row. Its docstring says it raises.
- **`execute` on MySQLdb.** It returns the cursor's `lastrowid` even when `_execute` has returned `False`.
- **Retry on a stale cursor.** `_execute` retries on the cursor it was given. That cursor belongs to the handle the reconnect has just closed.
- **Closed without reconnect.** With no positive reconnect delay, a failed `_execute` closes the connection. From then on, every query method fails with `AttributeError` when it asks `None` for a cursor.
- **Missing methods on the default adapter.** `UMySQLConnection`, the default `ultramysql` adapter of both MySQL pools, defines only `query` and `reconnect`. Every operation those pools submit (`execute`, `fetchone`, `fetchall`, `get_fields`) therefore fails with `AttributeError`. On `MySQLdbConnection`, `get_fields` is missing too.
- **`pymysql` adapter.** The import fails, because `PyMySQLConnection` is not defined in `gnet/mysql/client.py`.
- **No `set_exception` in the threaded pool.** Its worker calls `set_exception`, which its own `AsyncResult` lacks. A failing task that has a cell therefore kills its thread, and the cell is never set.
- **Non-blocking `map`.** `map` with `block=False` (or `deferred=False`) calls `.get` on `None`, after every task has been enqueued.
- **A lost query in `gmysql`.** A query that returns `False` (a lost connection with reconnecting off) never reaches the caller as `False`. Every operation code turns it into an exception in the cell.
- **Negative `n`.** It creates no connections and fails the final length assertion.

## Model

| member | source | states |
|---|---|---|
| Py.ZipDict | gnet/db/gmysql.py:105 | `dict(zip(keys, values))` has exactly the keys of the shorter prefix; a repeated key keeps the value of its last occurrence |
| Py.ZipDictDistinct | gnet/db/gmysql.py:104-105 | with distinct keys and enough values, the dict has exactly the keys and maps the j-th key to the j-th value |
| Routing.FirstMin | gnet/gconnectionpool.py:61 | the index picked holds a size no larger than any other, and every earlier index holds a strictly larger size (first minimum) |
| Routing.Select | gnet/gconnectionpool.py:56-62 | `qid >= 0` picks exactly `qid`, or `IndexError` past the end; otherwise the first minimal queue, or `ValueError` when there are no queues |
| Routing.Put | gnet/gconnectionpool.py:72-75 | the task is appended at the tail of the chosen queue and every other queue is unchanged |
| Routing.SubmitAll | gnet/gconnectionpool.py:82 | the reference behaviour of submitting a batch in order, as `map`'s comprehension does here and at `gnet/mysql/pool.py:169`: each task goes where routing sends it in the state the earlier ones left, and the first routing failure stops the batch |
| Routing.RouteFailureIgnoresLoad | gnet/gconnectionpool.py:59-61 | whether routing fails, and with which error, depends only on `qid` and the number of queues |
| Routing.SubmitAllFailsFirst | gnet/gconnectionpool.py:82 | a batch of submissions fails iff it is non-empty and its first routing fails, with that error; a successful batch keeps the number of queues |
| Routing.SubmitAllPinned | gnet/gconnectionpool.py:77-83 | a batch pinned to `qid` lands at the tail of that queue in submission order, and no other queue changes |
| Routing.PutAddsOne | gnet/gconnectionpool.py:72 | one put adds exactly that task to the pool's tasks, as a multiset |
| Routing.SubmitAllConserves | gnet/gconnectionpool.py:77-83 | after a batch, the pool's tasks, as a multiset, are the old ones plus the submitted ones: nothing is lost or duplicated |
| Routing.SubmitAllGrows | gnet/gconnectionpool.py:77-83 | a batch keeps the number of queues, and every old queue is a prefix of its new contents (queues only grow at the tail) |
| Routing.SubmitAllSnoc | gnet/gconnectionpool.py:82 | submitting one more task after a batch puts it on the queue routing picks in the state the batch left |
| GeventFuture.AsyncResult.constructor | gnet/gconnectionpool.py:71 | a fresh cell is pending |
| GeventFuture.AsyncResult.Set | gnet/gconnectionpool.py:46 | the cell is resolved with the value |
| GeventFuture.AsyncResult.SetException | gnet/gconnectionpool.py:50 | the cell is rejected with the exception |
| GeventFuture.AsyncResult.Get | gnet/gconnectionpool.py:83 | `get` waits exactly while the cell is pending, then returns the value or raises the exception |
| ConnectionPool.Delivered | gnet/gconnectionpool.py:43-52 | a returned value resolves the cell; a raised exception rejects it with the exception wrapped in `Exception` |
| ConnectionPool.MapTasks | gnet/gconnectionpool.py:82 | one task per argument tuple, in list order, with empty kwargs and the i-th cell |
| ConnectionPool.Yielded | gnet/gconnectionpool.py:83 | the generator's i-th element is `get` on the i-th cell, or `AttributeError("get")` where no cell was made; the generator is lazy, so with `deferred=False` nothing raises until the first element is consumed, and iteration ends at the first element that raises |
| ConnectionPool.Pool.constructor | gnet/gconnectionpool.py:26-34 | exactly `n` connections, made with the options, and `n` empty queues, paired one-to-one with workers |
| ConnectionPool.Pool.NewPool | gnet/gconnectionpool.py:17-34 | a negative `n` fails the length assertion; otherwise a valid pool of `n` empty queues |
| ConnectionPool.Pool.Step | gnet/gconnectionpool.py:36-54 | a worker step on a non-empty queue removes exactly the head task and leaves `Delivered(outcome)` in its cell; on an empty queue nothing changes |
| ConnectionPool.Pool.Call | gnet/gconnectionpool.py:64-75 | a routing failure raises and enqueues nothing; otherwise exactly one task, carrying the returned cell (a fresh pending one iff `deferred`), is appended to the chosen queue |
| ConnectionPool.Pool.CallNext | gnet/gconnectionpool.py:82 | one `call` of the comprehension: the new task extends the fold of the tasks already submitted, and routing can fail only on the first |
| ConnectionPool.Pool.Map | gnet/gconnectionpool.py:77-83 | fails iff the list is non-empty and routing fails; otherwise the queues are the old ones after submitting `MapTasks` in order, and the i-th cell belongs to the i-th input |
| MySQLClient.ConnectArgs | gnet/mysql/client.py:35-45 | `unix_socket` iff the host contains `/`, and then neither `host` nor `port`; otherwise `host` and `port`; `user` and `passwd` present iff given, with the given values |
| MySQLClient.ConnectArgsFixed | gnet/mysql/client.py:31-33 | whatever the address and credentials, the arguments hold `use_unicode=True`, the charset, the database, the time-zone init command, the connect timeout and the SQL mode |
| MySQLClient.TimeZoneCommand | gnet/mysql/client.py:32 | the `init_command` that sets the session time zone |
| MySQLClient.Params | gnet/mysql/client.py:180 | `kwargs or args`: the keyword arguments when there are any, the positional ones otherwise |
| MySQLClient.ArgsAccepted | gnet/mysql/client.py:257-258 | empty arguments of any type pass the assertion; non-empty ones must be a tuple or a list |
| MySQLClient.MySQLdbConnection.constructor | gnet/mysql/client.py:25-57 | the driver arguments are `ConnectArgs` of the parameters and defaults, and the first driver handle is open |
| MySQLClient.MySQLdbConnection.Close | gnet/mysql/client.py:62-66 | afterwards no handle is open; closing a closed connection changes nothing |
| MySQLClient.MySQLdbConnection.Reconnect | gnet/mysql/client.py:68-81 | the old handle is closed and a new one, the next serial, is open |
| MySQLClient.MySQLdbConnection.Executed | gnet/mysql/client.py:178-193 | the state `_execute` leaves: one send on success; after a failure with a positive delay a new handle and a second send on the same cursor; otherwise the connection closed |
| MySQLClient.MySQLdbConnection.Execute | gnet/mysql/client.py:178-193 | first success returns its result and sends once; a failure with a positive delay reconnects and resends once on the same cursor, returning the retry's result or `False`; otherwise the connection is closed and `False` returned |
| MySQLClient.MySQLdbConnection.CursorFor | gnet/mysql/client.py:175-176 | a cursor on the open handle, or `AttributeError("cursor")` once closed |
| MySQLClient.MySQLdbConnection.Fetchall | gnet/mysql/client.py:94-102 | closed: `AttributeError` and nothing sent; else `_execute`'s effect, then one row dict per result row built from the column names, or `TypeError` without a result set |
| MySQLClient.MySQLdbConnection.Fetchone | gnet/mysql/client.py:104-115 | `fetchall`'s effect and errors, then `FetchOne` of its rows |
| MySQLClient.MySQLdbConnection.ExecuteThenRead | gnet/mysql/client.py:119-139 | `_execute`'s effect, then the cursor attribute read afterwards, whatever `_execute` returned |
| MySQLClient.MySQLdbConnection.ExecuteMany | gnet/mysql/client.py:141-167 | one driver call for all parameter sequences, with no retry or reconnect: its error propagates, otherwise the cursor attribute is returned |
| MySQLClient.RowsOf | gnet/mysql/client.py:99-100 | one row per result row, in order, each `dict(zip(column_names, row))` |
| MySQLClient.FetchOne | gnet/mysql/client.py:109-115 | a row is returned iff there is exactly one, and it is that row; zero and several rows both give `None` |
| MySQLClient.MySQLdbMethod | gnet/mysql/client.py:83-173 | the query methods of `MySQLdbConnection`; `iter`, `fetchall` and `fetchone` yield a row iterator, all rows and one row; `insert`/`execute` run one statement returning `lastrowid`, `update` returns `rowcount`, and the `many` forms run `executemany` |
| MySQLClient.HasMethod | gnet/mysql/client.py:229-272 | `UMySQLConnection` has only `query` and `reconnect`; `MySQLdbConnection` has its query methods, `close` and `reconnect`; neither has `get_fields` |
| MySQLClient.RowAttr | gnet/mysql/client.py:196-203 | attribute access on a row is key lookup, and a missing key raises `AttributeError` naming it; the public method names of `dict` (`keys`, `get`, `items`, …) give the dict's method |
| MySQLClient.UMySQLConnection.constructor | gnet/mysql/client.py:230-237 | the connect tuple in the driver's order, the delay, and the first driver connection open |
| MySQLClient.UMySQLConnection.Reconnect | gnet/mysql/client.py:239-250 | one new driver connection per attempt, failed ones included, and nothing sent |
| MySQLClient.UMySQLConnection.Query | gnet/mysql/client.py:252-272 | non-empty non-sequence args fail the assertion before sending; success returns the result; a failure with a positive delay reconnects and retries once, else `False`; the connection is never closed |
| PoolConfig.Configure | gnet/mysql/pool.py:91-104 | an options map whose `reconnect_delay` entry is not accepted (see `DelayAccepted`) fails the assertion; `ultramysql` and `MySQLdb` pick their classes; `pymysql` fails to import; any other name raises "mysql client adapter not found" |
| PoolConfig.DelayAccepted | gnet/mysql/pool.py:91 | `options.get('reconnect_delay', 0) > 0` with Python 2's ordering: a missing entry or `None` fails, a number must be positive, and strings and containers pass |
| PoolConfig.DelayAcceptedInt | gnet/mysql/pool.py:91 | a missing entry is rejected, and an integer entry is accepted exactly when it is positive |
| PoolConfig.Connections | gnet/mysql/pool.py:106-108 | exactly `n` connections of the chosen class with the options, numbered in creation order |
| PoolConfig.Invoke | gnet/mysql/pool.py:127 | `getattr(conn, op)(...)` gives the operation's outcome when the class has the method, else `AttributeError(op)` |
| PoolConfig.FieldsQuery | gnet/mysql/pool.py:182 | `get_fields` sends `select * from <table> limit 0` |
| PoolConfig.UltraMySQLRejectsPoolOps | gnet/mysql/pool.py:125-127 | on the `ultramysql` adapter every operation the pool's wrappers submit raises `AttributeError` |
| PoolConfig.MySQLdbRunsPoolOps | gnet/mysql/pool.py:125-127 | on the `MySQLdb` adapter `execute`, `fetchone` and `fetchall` reach the driver and `get_fields` raises `AttributeError` |
| ThreadedPool.AsyncResult.constructor | gnet/mysql/pool.py:21-29 | a fresh cell is unset, holds `None` and keeps its own timeout |
| ThreadedPool.AsyncResult.Set | gnet/mysql/pool.py:31-38 | the cell is set and holds the value, overwriting any earlier one |
| ThreadedPool.AsyncResult.Clear | gnet/mysql/pool.py:40-45 | the cell is unset and keeps its value |
| ThreadedPool.AsyncResult.Get | gnet/mysql/pool.py:47-59 | returns the stored value at once iff non-blocking or set; otherwise waits, with the cell's own timeout overriding the caller's |
| ThreadedPool.MapTasks | gnet/mysql/pool.py:169 | one task per `(sql, args)` pair, in list order, tagged with `op` and the i-th cell |
| ThreadedPool.Gathered | gnet/mysql/pool.py:170 | the result list is complete iff every cell is set, and then lists their values in submission order |
| ThreadedPool.Pool.constructor | gnet/mysql/pool.py:106-116 | exactly `n` connections, `n` empty queues and `n` running threads |
| ThreadedPool.Pool.NewPool | gnet/mysql/pool.py:87-116 | `Configure`'s error when the options or adapter are rejected, the length assertion for a negative `n`, otherwise a valid pool of `n` connections of the chosen class |
| ThreadedPool.Pool.Step | gnet/mysql/pool.py:118-137 | a live thread with a task removes exactly the head task; a result sets its cell; a failure with a cell kills the thread and leaves the cell as it was; a failure without one is only logged |
| ThreadedPool.Pool.Submit | gnet/mysql/pool.py:155-162 | a routing failure raises and enqueues nothing; otherwise exactly one task is appended to the chosen queue, with a fresh unset cell iff `block` |
| ThreadedPool.Pool.Wrapper | gnet/mysql/pool.py:150-179 | `execute`, `fetchone` and `fetchall` enqueue exactly like `_execute`, with a task tagged with their own name: a routing error enqueues nothing; otherwise one task on the routed queue, with a fresh unset cell holding `None` iff `block` |
| ThreadedPool.Pool.GetFields | gnet/mysql/pool.py:181-182 | one blocking `get_fields` task for the table's empty select, on the shortest queue, with a fresh unset cell |
| ThreadedPool.Pool.SubmitNext | gnet/mysql/pool.py:169 | one `_execute` of the comprehension: the new task extends the fold of the tasks already submitted, with a fresh unset cell iff `block`; routing can fail only on the first |
| ThreadedPool.Pool.SubmitEach | gnet/mysql/pool.py:169 | the comprehension of `_execute` calls: fails iff the list is non-empty and routing fails, enqueueing nothing; otherwise the queues are the old ones after submitting `MapTasks` in order, with a fresh unset cell per pair iff `block` |
| ThreadedPool.Pool.Map | gnet/mysql/pool.py:164-170 | all pairs submitted in order (`SubmitAll` of `MapTasks`), or a routing error with nothing enqueued; non-blocking and non-empty fails with `AttributeError("get")`; else the i-th cell belongs to the i-th pair |
| GeventPool.Pool.constructor | gnet/mysql/gpool.py:44-52 | exactly `n` connections and `n` empty queues with idle workers |
| GeventPool.Pool.NewPool | gnet/mysql/gpool.py:25-52 | `Configure`'s error when the options or adapter are rejected, the length assertion for a negative `n`, otherwise a valid pool of `n` connections |
| GeventPool.Pool.Begin | gnet/mysql/gpool.py:60-61 | the peek returns the head task iff there is one, removes nothing, and marks the worker busy |
| GeventPool.Pool.Finish | gnet/mysql/gpool.py:62-73 | the cell gets the operation's result or its raised exception unwrapped; exactly the peeked head task is removed; the worker is idle again |
| GeventPool.Pool.Query | gnet/mysql/gpool.py:83-90 | a routing failure raises and enqueues nothing; otherwise one task at the tail of the chosen queue, with a fresh pending cell iff `block` |
| GeventPool.Pool.Wrapper | gnet/mysql/gpool.py:92-99 | `execute`, `fetchone` and `fetchall` enqueue exactly like `_query`, with a task tagged with their own name: a routing error enqueues nothing; otherwise one task on the routed queue, with a fresh pending cell iff `block` |
| GeventPool.Pool.GetFields | gnet/mysql/gpool.py:101-102 | one blocking `get_fields` task for the table's empty select, on the shortest queue, with a fresh pending cell |
| GeventPool.UnpinnedAvoidsBusy | gnet/mysql/gpool.py:75-81 | since running tasks stay queued, an unpinned task goes to an empty queue with an idle worker whenever some queue is empty |
| GMySQL.QueryResult | gnet/db/gmysql.py:50-73 | the argument assertion; the first answer; after a lost connection, the retry's result or error when the delay is not 0, else `False`; another failure on a live connection is re-raised |
| GMySQL.LostConnection | gnet/db/gmysql.py:59-71 | a `socket.error`, or another failure after which the driver reports it is no longer connected, counts as a lost connection |
| GMySQL.Reconnects | gnet/db/gmysql.py:55-71 | a query reconnects exactly when its arguments pass the assertion, the connection was lost and the delay is not 0 |
| GMySQL.Connection.constructor | gnet/db/gmysql.py:30-35 | the connect arguments in `umysql`'s order with the defaults `port=3306`, `autocommit=True`, `charset='utf8'`; reconnecting off by default; the first driver connection open |
| GMySQL.Connection.Reconnect | gnet/db/gmysql.py:37-48 | one new driver connection per attempt, and nothing sent |
| GMySQL.Connection.Query | gnet/db/gmysql.py:50-73 | the result is `QueryResult`; exactly the reconnecting cases make a new connection and resend on it, all others send once |
| GMySQL.FieldNames | gnet/db/gmysql.py:104 | the j-th name is the j-th field's name |
| GMySQL.DictMode | gnet/db/gmysql.py:103 | rows are dicts when no row class, an empty one or `'dict'` is asked for |
| GMySQL.GetResultRows | gnet/db/gmysql.py:102-107 | in dict mode each row becomes `dict(zip(names, row))`, otherwise the rows come back as they are, in order; a result without fields/rows raises `AttributeError` |
| GMySQL.Dispatch | gnet/db/gmysql.py:120-134 | op 0 the insert id or else the affected count; op 1 the first row or `None`; op 2 all rows; op 3 the field names; any other op `PoolError` |
| GMySQL.Report | gnet/db/gmysql.py:118-140 | the cell always ends resolved or rejected: the query's error, or the dispatched value or dispatch error |
| GMySQL.FalseBecomesError | gnet/db/gmysql.py:119-134 | a `False` from the query becomes, per op code, `TypeError`, `AttributeError` or `PoolError` in the cell |
| GMySQL.DictRowsByColumn | gnet/db/gmysql.py:102-105 | with distinct column names, each fetched dict row has exactly the column names as keys and maps the j-th name to the j-th value |
| GMySQL.NormaliseQid | gnet/db/gmysql.py:153-154 | an integer `qid` is kept, a bool counts as 0 or 1, anything else becomes -1 |
| GMySQL.Pool.NewPool | gnet/db/gmysql.py:85-100 | `n <= 0` fails the assertion; otherwise `n` fresh connections, each given the pool's reconnect delay, with empty queues and idle workers |
| GMySQL.Pool.constructor | gnet/db/gmysql.py:87-89 | the pool starts with no connections, queues or workers |
| GMySQL.Pool.AddSlot | gnet/db/gmysql.py:91-98 | one round of the setup loop adds the connection, an empty queue and an idle worker |
| GMySQL.Pool.Begin | gnet/db/gmysql.py:116-117 | the peek returns the head task iff there is one, removes nothing, and marks the worker busy |
| GMySQL.Pool.Finish | gnet/db/gmysql.py:118-142 | the cell gets `Report` of the connection's `QueryResult` for the task; exactly the head task is removed, whatever happened; the worker's connection keeps its reconnect delay and sends or reconnects exactly as its `query` does |
| GMySQL.Pool.Query | gnet/db/gmysql.py:152-161 | routing on the normalised `qid`; a routing failure raises and enqueues nothing; otherwise one task at the tail of the chosen queue, with a fresh pending cell iff `block` |
| GMySQL.Pool.Execute | gnet/db/gmysql.py:163-164 | exactly `query`'s contract with op code 0: the routing error itself and nothing enqueued, or one task on the routed queue with a fresh pending cell iff `block` |
| GMySQL.Pool.Fetchone | gnet/db/gmysql.py:166-167 | exactly `query`'s contract with op code 1: the routing error itself and nothing enqueued, or one task on the routed queue with a fresh pending cell iff `block` |
| GMySQL.Pool.Fetchall | gnet/db/gmysql.py:169-170 | exactly `query`'s contract with op code 2: the routing error itself and nothing enqueued, or one task on the routed queue with a fresh pending cell iff `block` |
| GMySQL.Pool.GetFields | gnet/db/gmysql.py:172-173 | one blocking op-3 task for the table's empty select, unpinned, with empty arguments, the default row class and a fresh pending cell |
| Util.DecimalString | gu/util.py:24 | `str(n)`: decimal digits, without a leading zero |
| Util.DecimalRoundTrip | gu/util.py:32 | `int(str(n)) == n`: the number printed in the marker is the cut length itself |
| Util.DigitsBounds | gu/util.py:24 | `len(str(n))` is the `k` with `10^(k-1) <= n < 10^k` |
| Util.DigitsExact | gu/util.py:28 | a number in `[10^(k-1), 10^k)` has exactly `k` digits |
| Util.CutLength | gu/util.py:23-29 | the adjusted cut length is the least `c` with `c == base + len(str(c))` |
| Util.BumpKeepsDigits | gu/util.py:28-29 | when adding the digit count adds a digit, one more character reaches the fixed point |
| Util.PyPrefix | gu/util.py:32 | `s[:end]` with Python's rules: a prefix of `s`, with negative ends counted from the back and clipped |
| Util.Marker | gu/util.py:32 | the marker is `..(`, the digits of `c`, `)..` |
| Util.Shorten | gu/util.py:11-32 | a string shorter than `width` is unchanged; otherwise a prefix of `s` then the marker for `c`, where `c` counts its own digits |
| Util.ShortenExact | gu/util.py:23-32 | when the cut fits, the result is exactly `width` long, keeps the first `len - c` characters and drops exactly `c` |
| Util.ShortenExample | gu/util.py:13-14 | the documented example shortens to `a very very ..(23)..` |
| Util.ShortenNarrow | gu/util.py:23-32 | with a narrow width the end position goes negative and the result is longer than `width` |
| SessionIds.Succ | gu/protocol.py:28-30 | the successor of `v` is `v + 1` below `2^31`, and 1 past it |
| SessionIds.NthId | gu/protocol.py:24-31 | the generator's value after `k` turns of its loop, starting from 0 |
| SessionIds.IdGenerator.constructor | gu/protocol.py:25 | the counter starts at 0 with nothing produced |
| SessionIds.IdGenerator.Next | gu/protocol.py:27-31 | yields the successor of the counter, in `[1, 2^31]`, and keeps the counter equal to the closed form of the count produced |
| SessionIds.NthIdClosedForm | gu/protocol.py:24-31 | the k-th value is `(k - 1) mod 2^31 + 1` |
| SessionIds.IdsInRange | gu/protocol.py:25-31 | the first value is 1, and every value lies in `[1, 2^31]` |
| SessionIds.IdsPeriodic | gu/protocol.py:24-31 | the sequence repeats with period `2^31` |
| SessionIds.IdsDistinctInWindow | gu/protocol.py:24-31 | any `2^31` consecutive values are pairwise distinct |
| SessionIds.Protocol.constructor | gu/protocol.py:42-55 | `recv_buf_size` and `read_deadline` fall back to 256 and 0; `session_id` is the shared generator's next value |
| SessionIds.OpenTwo | gu/protocol.py:55 | two instances made one after the other get successive, different session ids |

## Left out

- Threads, greenlets and blocking are left out. These are `Thread`/`gevent.spawn`, condition waits and notifications, blocking queue `get` and cell `get`, and `join`. Submissions and worker iterations are atomic steps, and a blocked `get` is an outcome (`Waits`/`WaitThen`).
- `ThreadedPool.AsyncResult.Get`: states that it waits and with which time limit. It does not state what it returns after a timeout expires, because that depends on timing.
- `ThreadedPool.Pool.Map` and `ThreadedPool.Pool.SubmitEach`: the whole comprehension of `_execute` calls is one atomic batch, so its queues are `SubmitAll` of the old queues. In the source the worker threads run during the comprehension. A worker's `q.get()` between two `_execute` calls changes the `qsize()` values that shortest-queue routing reads, so an unpinned task can land on another queue than the model says. These promises do not depend on the routing choice and still hold: one task per pair with its own cell, nothing else enqueued, and a pinned batch in order on its queue (`SubmitAllPinned`). In `ConnectionPool` the batch is exact, because gevent's unbounded `put` does not yield; `GeventPool` and `GMySQL` have no `map`.
- `MySQLClient.RowAttr`: special `__…__` names such as `__class__` or `__len__` are found by normal lookup before `Row.__getattr__` runs. The model treats them as column keys.
- `ConnectionPool.Yielded`: the `timeout` that `map` passes to `get` is not modelled, because timeouts are not modelled at all.
- The drivers are left out: `MySQLdb.connect`, cursors, `umysql.Connection`, `is_connected` and the `CONVERSIONS` table (the `conv` connect argument). They are foreign libraries. What they return or raise is a parameter, and `RawResult` is the shape of `umysql`'s results.
- The reconnect loops retry forever and sleep between attempts. The model takes a count of failed attempts and assumes the next one succeeds, because termination depends on the network. `MySQLdbConnection.Reconnect` is taken to succeed at once.
- `MySQLdbConnection.__del__`, `_last_use_time` (a clock reading) and the float conversion of `max_idle_time` are left out. `max_idle_time` is kept as an integer.
- `MySQLdbConnection.iter` is left out: it is a generator over a server-side cursor, with the same row construction as `fetchall`.
- The constructors' failure paths are left out: a connection that cannot be made at all, and exceptions raised while building connections inside a pool.
- `GMySQL.Dispatch`: takes `umysql`'s result-set object to support neither `rs[1]` nor `rs[0]`, so op 0 on a select raises `TypeError`. This is an assumption about the foreign driver, which is not available.
- `MySQLClient.HasMethod`: covers only the public methods of each connection class. A worker does `getattr(conn, op)(sql, *args)`. For a private method such as `_execute` or `_cursor` that call can run or raise a `TypeError` on the argument count. For a data attribute such as `host`, `args` or `conn` it raises `TypeError`, because the value is not callable. The model treats all such names as missing (`AttributeError`). The pools' own wrappers never submit such names; only `map` with an arbitrary op name can reach them.
- In `ConnectionPool`, `ThreadedPool` and `GeventPool`, connections are opaque values without per-connection state, because those pools never read it. `GMySQL` keeps real `Connection` objects, whose `query` the worker step runs.
- Logging is left out everywhere.
- `Protocol`'s socket, address, send queue, sending and receiving loops and the `HookLog` handlers in `gu/protocol.py` are left out. These are socket I/O and float time formatting; only `session_id` and the two options are kept.
- `gu/delay.py` and `Singleton` in `gu/util.py` are not part of this model. They depend on wall-clock time and process-wide class state.
- The example scripts, the test scripts and `setup.py` are not part of this model. They are network scripts and packaging.
- `reconnect_delay is not 0` in `gmysql.py` is modelled as `!= 0` on integers. A float delay such as `0.0` is not covered.
- Float `reconnect_delay` values are left out, because `Value` has no floats. The pools' `options.get('reconnect_delay', 0) > 0` check covers the other value types with Python 2's ordering (`DelayAccepted`). Connections take their delay as an integer.
- `shorten` converts a non-`str` argument with `str` first. The model takes a string.
- Shutdown, draining and once-only resolution of cells do not exist in the code and are not modelled.
