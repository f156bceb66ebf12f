/** What the two MySQL pools (the threaded one and the gevent one) share: the checks their
    constructors make before creating connections, the connection objects they hold, and
    how a worker resolves a task's operation name against its connection. */
module PoolConfig {
  import opened Py
  import opened MySQLClient

  /** `connection_cls(**options)`: the `serial`-th connection a pool created. */
  datatype Conn = Conn(serial: nat, cls: ConnectionClass, options: map<string, Value>)

  /** The message of the exception an unknown adapter name raises. */
  const AdapterNotFound := "mysql client adapter not found"

  /** `options.get('reconnect_delay', 0) > 0` under Python 2's ordering: numbers compare by
      value (a `bool` as 0 or 1), `None` sorts below every number, and strings and
      containers sort above every number. */
  predicate DelayAccepted(options: map<string, Value>) {
    "reconnect_delay" in options &&
    match options["reconnect_delay"]
    case NoneV => false
    case BoolV(b) => b
    case IntV(i) => i > 0
    case _ => true
  }

  /** A missing entry counts as 0 and is rejected; an integer entry is accepted iff it is
      positive. */
  lemma DelayAcceptedInt(options: map<string, Value>, d: int)
    ensures "reconnect_delay" !in options ==> !DelayAccepted(options)
    ensures DelayAccepted(options["reconnect_delay" := IntV(d)]) <==> d > 0
  {
  }

  /** The checks `Pool.__init__` makes before any connection exists, in order: the
      `reconnect_delay` option must be accepted, then the adapter name picks the connection
      class. `pymysql` names a class the client module does not define, so its import
      fails. */
  function Configure(options: map<string, Value>, adapter: string): (r: Result<ConnectionClass>)
    ensures !DelayAccepted(options) ==> r == Err(AssertionError)
    ensures DelayAccepted(options) ==> (r.Ok? <==> adapter == "ultramysql" || adapter == "MySQLdb")
    ensures r == Ok(UMySQL) <==> DelayAccepted(options) && adapter == "ultramysql"
    ensures r == Ok(MySQLdbConn) <==> DelayAccepted(options) && adapter == "MySQLdb"
    ensures DelayAccepted(options) && adapter == "pymysql" ==> r == Err(ImportError("PyMySQLConnection"))
    ensures DelayAccepted(options) && adapter !in {"ultramysql", "MySQLdb", "pymysql"} ==>
      r == Err(Exception(AdapterNotFound))
  {
    if !DelayAccepted(options) then Err(AssertionError)
    else if adapter == "ultramysql" then Ok(UMySQL)
    else if adapter == "MySQLdb" then Ok(MySQLdbConn)
    else if adapter == "pymysql" then Err(ImportError("PyMySQLConnection"))
    else Err(Exception(AdapterNotFound))
  }

  /** `[cls(**options) for _ in xrange(n)]`, serial numbers in creation order. */
  function Connections(cls: ConnectionClass, options: map<string, Value>, n: nat): (cs: seq<Conn>)
    ensures |cs| == n
    ensures forall i :: 0 <= i < n ==> cs[i] == Conn(i, cls, options)
  {
    seq(n, i requires 0 <= i < n => Conn(i, cls, options))
  }

  /** `getattr(conn, op)(sql, *args)` on a connection of class `cls`: the operation's own
      outcome when the method exists, an `AttributeError` naming `op` when it does not. */
  function Invoke(cls: ConnectionClass, op: string, outcome: Outcome): (r: Outcome)
    ensures HasMethod(cls, op) ==> r == outcome
    ensures !HasMethod(cls, op) ==> r == Raised(AttributeError(op))
  {
    if HasMethod(cls, op) then outcome else Raised(AttributeError(op))
  }

  /** The operation names the pools' own wrappers submit. */
  const PoolOps: set<string> := {"execute", "fetchone", "fetchall", "get_fields"}

  /** `get_fields(table_name)`: the statement it submits. */
  function FieldsQuery(table: string): (sql: string)
    ensures sql == "select * from " + table + " limit 0"
    ensures |sql| == |table| + 22
  {
    "select * from " + table + " limit 0"
  }

  /** On the default `ultramysql` adapter every operation the pool wrappers submit fails
      before reaching the driver: `UMySQLConnection` offers only `query` and `reconnect`. */
  lemma {:induction false} UltraMySQLRejectsPoolOps(op: string, outcome: Outcome)
    requires op in PoolOps
    ensures Invoke(UMySQL, op, outcome) == Raised(AttributeError(op))
  {
    assert !HasMethod(UMySQL, op);
  }

  /** On the `MySQLdb` adapter the row and statement operations run against the driver and
      only `get_fields` fails, since the connection class has no such method. */
  lemma MySQLdbRunsPoolOps(op: string, outcome: Outcome)
    requires op in PoolOps
    ensures op != "get_fields" ==> Invoke(MySQLdbConn, op, outcome) == outcome
    ensures op == "get_fields" ==> Invoke(MySQLdbConn, op, outcome) == Raised(AttributeError("get_fields"))
  {
    if op != "get_fields" {
      assert MySQLdbMethod(op).Some?;
    }
  }
}
