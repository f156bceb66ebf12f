/** The MySQL connection classes the pools run their tasks against: `MySQLdbConnection`
    (a cursor-based driver) and `UMySQLConnection`. The drivers themselves are foreign:
    each call into them is represented by the `Outcome` it produced, passed in as a
    parameter, and an open driver handle by its serial number. */
module MySQLClient {
  import opened Py

  /** The connection classes a pool can be built on. */
  datatype ConnectionClass = UMySQL | MySQLdbConn

  /** One statement handed to a driver: on which handle, the SQL, its parameters. */
  datatype Sent = Sent(handle: nat, query: string, params: Value)

  /** `if args: assert isinstance(args, (tuple, list))`: empty arguments of any type pass. */
  predicate ArgsAccepted(args: Value) {
    !Truthy(args) || args.TupleV? || args.ListV?
  }

  /** The keyword names `MySQLdbConnection.__init__` passes to `MySQLdb.connect`:
      `use_unicode`, `charset`, `db`, `init_command`, `connect_timeout`, `sql_mode`, `user`,
      `passwd`, `unix_socket`, `host` and `port`. */
  datatype ConnectKey =
    UseUnicode | Charset | Db | InitCommand | ConnectTimeout | SqlMode | User | Passwd | UnixSocket | Host | Port

  /** The keyword arguments `MySQLdbConnection.__init__` prepares for `MySQLdb.connect`:
      a socket path or a host and port, then `user` and `passwd` only when given. The
      `conv` entry (the driver's conversion table) is foreign and left out. */
  function ConnectArgs(host: string, user: Option<string>, passwd: Option<string>, db: string, port: int,
                       charset: string, sqlMode: string, timeZone: string, connectTimeout: int)
    : (args: map<ConnectKey, Value>)
    ensures UnixSocket in args <==> '/' in host
    ensures '/' in host ==> args[UnixSocket] == StrV(host) && Host !in args && Port !in args
    ensures '/' !in host ==> Host in args && args[Host] == StrV(host) && Port in args && args[Port] == IntV(port)
    ensures User in args <==> user.Some?
    ensures user.Some? ==> args[User] == StrV(user.value)
    ensures Passwd in args <==> passwd.Some?
    ensures passwd.Some? ==> args[Passwd] == StrV(passwd.value)
  {
    var base := map[UseUnicode := BoolV(true), Charset := StrV(charset), Db := StrV(db),
                    InitCommand := StrV(TimeZoneCommand(timeZone)),
                    ConnectTimeout := IntV(connectTimeout), SqlMode := StrV(sqlMode)];
    var address := if '/' in host then base[UnixSocket := StrV(host)]
                   else base[Host := StrV(host)][Port := IntV(port)];
    var withUser := if user.Some? then address[User := StrV(user.value)] else address;
    if passwd.Some? then withUser[Passwd := StrV(passwd.value)] else withUser
  }

  /** `'SET time_zone = "%s"' % time_zone`. */
  function TimeZoneCommand(timeZone: string): string {
    "SET time_zone = \"" + timeZone + "\""
  }

  /** The entries every connection gets, whatever the address and credentials. */
  lemma ConnectArgsFixed(host: string, user: Option<string>, passwd: Option<string>, db: string, port: int,
                         charset: string, sqlMode: string, timeZone: string, connectTimeout: int)
    ensures var args := ConnectArgs(host, user, passwd, db, port, charset, sqlMode, timeZone, connectTimeout);
      UseUnicode in args && args[UseUnicode] == BoolV(true) &&
      Charset in args && args[Charset] == StrV(charset) &&
      Db in args && args[Db] == StrV(db) &&
      InitCommand in args && args[InitCommand] == StrV(TimeZoneCommand(timeZone)) &&
      ConnectTimeout in args && args[ConnectTimeout] == IntV(connectTimeout) &&
      SqlMode in args && args[SqlMode] == StrV(sqlMode)
  {
  }

  /** `kwargs or args`: the parameters `_execute` hands to the cursor. */
  function Params(args: seq<Value>, kwargs: map<string, Value>): (p: Value)
    ensures kwargs != map[] ==> p == DictV(kwargs)
    ensures kwargs == map[] ==> p == TupleV(args)
  {
    if kwargs != map[] then DictV(kwargs) else TupleV(args)
  }

  /** A cursor, bound to the driver handle it was opened on. */
  datatype Cursor = Cursor(handle: nat)

  class MySQLdbConnection {
    const host: string
    const dbName: string
    const maxIdleTime: int
    const dbArgs: map<ConnectKey, Value>
    const autocommit: bool
    const reconnectDelay: int
    /** `_db`: the open driver handle, by serial number, or `None` once closed. */
    var handle: Option<nat>
    /** How many driver handles have been opened so far. */
    var serials: nat
    /** Every statement sent to the driver, in order. */
    ghost var log: seq<Sent>

    /** An open handle is the most recently opened one. */
    ghost predicate Valid()
      reads this
    {
      handle.Some? ==> handle.value + 1 == serials
    }

    /** Builds the connect arguments and connects; the reconnect loop is taken to succeed. */
    constructor (host: string, user: Option<string>, passwd: Option<string>, db: string, port: int := 3306,
                 autocommit: bool := true, charset: string := "utf8", reconnectDelay: int := 0,
                 maxIdleTime: int := 7 * 3600, sqlMode: string := "TRADITIONAL", timeZone: string := "+0:00",
                 connectTimeout: int := 0)
      ensures Valid()
      ensures this.host == host && dbName == db && this.maxIdleTime == maxIdleTime
      ensures dbArgs == ConnectArgs(host, user, passwd, db, port, charset, sqlMode, timeZone, connectTimeout)
      ensures this.autocommit == autocommit && this.reconnectDelay == reconnectDelay
      ensures handle == Some(0) && serials == 1 && log == []
    {
      this.host := host;
      dbName := db;
      this.maxIdleTime := maxIdleTime;
      dbArgs := ConnectArgs(host, user, passwd, db, port, charset, sqlMode, timeZone, connectTimeout);
      this.autocommit := autocommit;
      this.reconnectDelay := reconnectDelay;
      handle := None;
      serials := 0;
      log := [];
      new;
      Reconnect();
    }

    /** `close`: drop the handle if there is one; closing a closed connection does nothing. */
    method Close()
      requires Valid()
      modifies this
      ensures Valid() && handle == None && serials == old(serials) && log == old(log)
      ensures old(handle).None? ==> unchanged(this)
    {
      if handle.Some? {
        handle := None;
      }
    }

    /** `reconnect`: close, then open a new handle (the retry-with-sleep loop is taken to
        succeed eventually). */
    method Reconnect()
      requires Valid()
      modifies this
      ensures Valid() && handle == Some(old(serials)) && serials == old(serials) + 1 && log == old(log)
    {
      Close();
      handle := Some(serials);
      serials := serials + 1;
    }

    /** The state `_execute` leaves behind: one statement sent when it succeeds first time;
        otherwise, with a positive delay, a reconnect and the same statement sent again on the
        same cursor (so against the handle the cursor was opened on), and with no positive
        delay the connection closed. */
    twostate predicate Executed(cursor: Cursor, query: string, params: Value, first: Outcome)
      reads this
    {
      var sent := Sent(cursor.handle, query, params);
      if first.Returned? then
        handle == old(handle) && serials == old(serials) && log == old(log) + [sent]
      else if reconnectDelay > 0 then
        handle == Some(old(serials)) && serials == old(serials) + 1 && log == old(log) + [sent, sent]
      else
        handle == None && serials == old(serials) && log == old(log) + [sent]
    }

    /** `_execute`: run the statement on `cursor`; on failure either reconnect and retry once,
        or, with no positive reconnect delay, close the connection; a failure left over
        yields `False`. */
    method Execute(cursor: Cursor, query: string, args: seq<Value>, kwargs: map<string, Value>,
                   first: Outcome, retry: Outcome) returns (r: Value)
      requires Valid()
      modifies this
      ensures Valid() && Executed(cursor, query, Params(args, kwargs), first)
      ensures first.Returned? ==> r == first.value
      ensures first.Raised? && reconnectDelay > 0 ==> r == (if retry.Returned? then retry.value else BoolV(false))
      ensures first.Raised? && reconnectDelay <= 0 ==> r == BoolV(false)
    {
      var sent := Sent(cursor.handle, query, Params(args, kwargs));
      log := log + [sent];
      if first.Returned? {
        return first.value;
      }
      if reconnectDelay > 0 {
        Reconnect();
        log := log + [sent];
        r := if retry.Returned? then retry.value else BoolV(false);
      } else {
        Close();
        r := BoolV(false);
      }
    }

    /** `_cursor()`: a cursor on the open handle; once the connection is closed `_db` is
        `None`, and asking it for a cursor raises `AttributeError`. */
    function CursorFor(): (r: Result<Cursor>)
      reads this
      ensures r.Ok? <==> handle.Some?
      ensures r.Ok? ==> r.value.handle == handle.value
      ensures r.Err? ==> r.error == AttributeError("cursor")
    {
      if handle.Some? then Ok(Cursor(handle.value)) else Err(AttributeError("cursor"))
    }

    /** `fetchall`: run the query through `_execute`, then build one row per result row from
        the cursor's column names. `description` and `rows` are what the cursor holds
        afterwards; without a description (no result set) the column names cannot be read. */
    method Fetchall(query: string, args: seq<Value>, kwargs: map<string, Value>, first: Outcome, retry: Outcome,
                    description: Option<seq<string>>, rows: seq<seq<Value>>)
      returns (r: Result<seq<map<string, Value>>>)
      requires Valid()
      modifies this
      ensures Valid()
      ensures old(handle).None? ==> r == Err(AttributeError("cursor")) && unchanged(this)
      ensures old(handle).Some? ==> Executed(Cursor(old(handle).value), query, Params(args, kwargs), first)
      ensures old(handle).Some? && description.None? ==> r == Err(TypeError)
      ensures old(handle).Some? && description.Some? ==> r == Ok(RowsOf(description.value, rows))
    {
      var c := CursorFor();
      if c.Err? {
        return Err(c.error);
      }
      var _ := Execute(c.value, query, args, kwargs, first, retry);
      if description.None? {
        return Err(TypeError);
      }
      r := Ok(RowsOf(description.value, rows));
    }

    /** `fetchone`: `fetchall`, then `FetchOne` on its rows. */
    method Fetchone(query: string, args: seq<Value>, kwargs: map<string, Value>, first: Outcome, retry: Outcome,
                    description: Option<seq<string>>, rows: seq<seq<Value>>)
      returns (r: Result<Option<map<string, Value>>>)
      requires Valid()
      modifies this
      ensures Valid()
      ensures old(handle).None? ==> r == Err(AttributeError("cursor")) && unchanged(this)
      ensures old(handle).Some? ==> Executed(Cursor(old(handle).value), query, Params(args, kwargs), first)
      ensures old(handle).Some? && description.None? ==> r == Err(TypeError)
      ensures old(handle).Some? && description.Some? ==> r == Ok(FetchOne(RowsOf(description.value, rows)))
    {
      var all := Fetchall(query, args, kwargs, first, retry, description, rows);
      if all.Err? {
        return Err(all.error);
      }
      r := Ok(FetchOne(all.value));
    }

    /** `execute_lastrowid` and `execute_rowcount` (and `execute`, `insert`, `update`): run
        the query through `_execute` and return the cursor attribute `attribute` read
        afterwards, whatever `_execute` returned; its `False` never reaches the caller. */
    method ExecuteThenRead(query: string, args: seq<Value>, kwargs: map<string, Value>, first: Outcome,
                           retry: Outcome, attribute: Value) returns (r: Result<Value>)
      requires Valid()
      modifies this
      ensures Valid()
      ensures old(handle).None? ==> r == Err(AttributeError("cursor")) && unchanged(this)
      ensures old(handle).Some? ==>
        r == Ok(attribute) && Executed(Cursor(old(handle).value), query, Params(args, kwargs), first)
    {
      var c := CursorFor();
      if c.Err? {
        return Err(c.error);
      }
      var _ := Execute(c.value, query, args, kwargs, first, retry);
      r := Ok(attribute);
    }

    /** `executemany_lastrowid` and `executemany_rowcount` (and `executemany`, `insertmany`,
        `updatemany`): one driver call for all parameter sequences, with no retry and no
        reconnect, so a driver failure propagates. */
    method ExecuteMany(query: string, paramSeqs: seq<Value>, outcome: Outcome, attribute: Value)
      returns (r: Result<Value>)
      requires Valid()
      modifies this
      ensures Valid() && handle == old(handle) && serials == old(serials)
      ensures old(handle).None? ==> r == Err(AttributeError("cursor")) && log == old(log)
      ensures old(handle).Some? ==> log == old(log) + [Sent(old(handle).value, query, ListV(paramSeqs))]
      ensures old(handle).Some? && outcome.Raised? ==> r == Err(outcome.error)
      ensures old(handle).Some? && outcome.Returned? ==> r == Ok(attribute)
    {
      var c := CursorFor();
      if c.Err? {
        return Err(c.error);
      }
      log := log + [Sent(c.value.handle, query, ListV(paramSeqs))];
      if outcome.Raised? {
        return Err(outcome.error);
      }
      r := Ok(attribute);
    }
  }

  /** `[Row(zip(column_names, row)) for row in cursor]`. */
  function RowsOf(names: seq<string>, rows: seq<seq<Value>>): (r: seq<map<string, Value>>)
    ensures |r| == |rows|
    ensures forall i :: 0 <= i < |rows| ==> r[i] == ZipDict(names, rows[i])
  {
    seq(|rows|, i requires 0 <= i < |rows| => ZipDict(names, rows[i]))
  }

  /** `fetchone` on the rows `fetchall` produced: the row when there is exactly one, and
      `None` both for no row and for several (the code only logs a warning then). */
  function FetchOne(rows: seq<map<string, Value>>): (r: Option<map<string, Value>>)
    ensures r.Some? <==> |rows| == 1
    ensures r.Some? ==> r.value == rows[0]
  {
    if rows == [] then None
    else if |rows| > 1 then None
    else Some(rows[0])
  }

  /** What a query-running method of `MySQLdbConnection` returns. */
  datatype Yields = LastRowId | RowCount | AllRows | OneRow | RowIterator

  /** Such a method: whether it runs `executemany`, and what it returns. */
  datatype Impl = Impl(many: bool, result: Yields)

  /** The query-running methods of `MySQLdbConnection`, with the class-level aliases
      `update`, `updatemany`, `insert`, `insertmany` and the forwarding `execute`, `executemany`. */
  function MySQLdbMethod(name: string): (r: Option<Impl>)
    ensures r.Some? <==> name in {"iter", "fetchall", "fetchone", "execute", "execute_lastrowid",
                                   "execute_rowcount", "executemany", "executemany_lastrowid",
                                   "executemany_rowcount", "update", "updatemany", "insert", "insertmany"}
    ensures name == "iter" ==> r == Some(Impl(false, RowIterator))
    ensures name == "fetchall" ==> r == Some(Impl(false, AllRows))
    ensures name == "fetchone" ==> r == Some(Impl(false, OneRow))
    ensures name in {"execute", "execute_lastrowid", "insert"} ==> r == Some(Impl(false, LastRowId))
    ensures name in {"execute_rowcount", "update"} ==> r == Some(Impl(false, RowCount))
    ensures name in {"executemany", "executemany_lastrowid", "insertmany"} ==> r == Some(Impl(true, LastRowId))
    ensures name in {"executemany_rowcount", "updatemany"} ==> r == Some(Impl(true, RowCount))
  {
    match name
    case "iter" => Some(Impl(false, RowIterator))
    case "fetchall" => Some(Impl(false, AllRows))
    case "fetchone" => Some(Impl(false, OneRow))
    case "execute" => Some(Impl(false, LastRowId))
    case "execute_lastrowid" => Some(Impl(false, LastRowId))
    case "insert" => Some(Impl(false, LastRowId))
    case "execute_rowcount" => Some(Impl(false, RowCount))
    case "update" => Some(Impl(false, RowCount))
    case "executemany" => Some(Impl(true, LastRowId))
    case "executemany_lastrowid" => Some(Impl(true, LastRowId))
    case "insertmany" => Some(Impl(true, LastRowId))
    case "executemany_rowcount" => Some(Impl(true, RowCount))
    case "updatemany" => Some(Impl(true, RowCount))
    case _ => None
  }

  /** Whether `getattr(conn, name)` finds a method on a connection of class `cls`.
      `UMySQLConnection` has only `query` and `reconnect`, so the pool op names
      `execute`, `fetchone`, `fetchall` and `get_fields` are all missing there, and
      `get_fields` is missing on `MySQLdbConnection` too. */
  function HasMethod(cls: ConnectionClass, name: string): (r: bool)
    ensures cls == UMySQL ==> (r <==> name in {"query", "reconnect"})
    ensures cls == MySQLdbConn ==> (r <==> MySQLdbMethod(name).Some? || name in {"close", "reconnect"})
    ensures name == "get_fields" ==> !r
  {
    match cls
    case UMySQL => name in {"query", "reconnect"}
    case MySQLdbConn => MySQLdbMethod(name).Some? || name in {"close", "reconnect"}
  }

  /** The public method names a `dict` already has; `Row.__getattr__` is consulted only for
      others. Special `__…__` names that normal lookup also finds first are not modelled. */
  const DictAttributes: set<string> :=
    {"clear", "copy", "fromkeys", "get", "has_key", "items", "iteritems", "iterkeys", "itervalues",
     "keys", "pop", "popitem", "setdefault", "update", "values", "viewitems", "viewkeys", "viewvalues"}

  /** What attribute access on a `Row` produces: a column value, or a bound dict method. */
  datatype Attr = Item(value: Value) | DictMethod(name: string)

  /** `row.name` on a `Row`: the column `name`, an `AttributeError` when there is none,
      and the dict's own method for names a dict already has. */
  function RowAttr(row: map<string, Value>, name: string): (r: Result<Attr>)
    ensures name in DictAttributes ==> r == Ok(DictMethod(name))
    ensures name !in DictAttributes ==> (r.Ok? <==> name in row)
    ensures name !in DictAttributes && name in row ==> r == Ok(Item(row[name]))
    ensures name !in DictAttributes && name !in row ==> r == Err(AttributeError(name))
  {
    if name in DictAttributes then Ok(DictMethod(name))
    else if name in row then Ok(Item(row[name]))
    else Err(AttributeError(name))
  }

  /** `(host, port, user, passwd, db, autocommit, charset)`, as `umysql` wants them. */
  datatype UArgs = UArgs(host: string, port: int, user: string, passwd: string, db: string,
                         autocommit: bool, charset: string)

  class UMySQLConnection {
    const connectArgs: UArgs
    const reconnectDelay: int
    /** `self.conn`: the serial number of the current `umysql.Connection` object. */
    var conn: nat
    /** Every query sent to a driver connection, in order. */
    ghost var log: seq<Sent>

    constructor (host: string, user: string, passwd: string, db: string, port: int := 3306,
                 autocommit: bool := true, charset: string := "utf8", reconnectDelay: int := 0)
      ensures connectArgs == UArgs(host, port, user, passwd, db, autocommit, charset)
      ensures this.reconnectDelay == reconnectDelay && conn == 0 && log == []
    {
      connectArgs := UArgs(host, port, user, passwd, db, autocommit, charset);
      this.reconnectDelay := reconnectDelay;
      conn := 0;
      log := [];
    }

    /** `reconnect`: close the current connection object and make a new one per attempt;
        `failures` attempts fail before one connects. */
    method Reconnect(failures: nat)
      modifies this
      ensures conn == old(conn) + failures + 1 && log == old(log)
    {
      conn := conn + 1;
      var attempt := 0;
      while attempt < failures
        invariant attempt <= failures && conn == old(conn) + attempt + 1 && log == old(log)
      {
        conn := conn + 1;
        attempt := attempt + 1;
      }
    }

    /** `query`: reject non-sequence arguments; send; on failure reconnect and retry once when
        the delay is positive, and return `False` if that fails too or if there is no retry.
        Unlike `_execute`, it never closes the connection. */
    method Query(sql: string, args: Value, first: Outcome, retry: Outcome, reconnectFailures: nat)
      returns (r: Result<Value>)
      modifies this
      ensures !ArgsAccepted(args) ==> r == Err(AssertionError) && conn == old(conn) && log == old(log)
      ensures ArgsAccepted(args) && first.Returned? ==>
        r == Ok(first.value) && conn == old(conn) && log == old(log) + [Sent(old(conn), sql, args)]
      ensures ArgsAccepted(args) && first.Raised? && reconnectDelay > 0 ==>
        conn == old(conn) + reconnectFailures + 1 &&
        log == old(log) + [Sent(old(conn), sql, args), Sent(old(conn) + reconnectFailures + 1, sql, args)] &&
        r == Ok(if retry.Returned? then retry.value else BoolV(false))
      ensures ArgsAccepted(args) && first.Raised? && reconnectDelay <= 0 ==>
        r == Ok(BoolV(false)) && conn == old(conn) && log == old(log) + [Sent(old(conn), sql, args)]
    {
      if !ArgsAccepted(args) {
        return Err(AssertionError);
      }
      log := log + [Sent(conn, sql, args)];
      if first.Returned? {
        return Ok(first.value);
      }
      if reconnectDelay > 0 {
        Reconnect(reconnectFailures);
        log := log + [Sent(conn, sql, args)];
        r := Ok(if retry.Returned? then retry.value else BoolV(false));
      } else {
        r := Ok(BoolV(false));
      }
    }
  }
}
