/**
 * CassandraAppender.java: a log4j appender that buffers logging events and
 * writes them to a Cassandra column family, one INSERT per event, in batches.
 *
 * The cluster connection is the abstract `Sessions.Session`; the random UUID
 * keys come from a key sequence given at construction; log4j's event
 * accessors become the fields of `LoggingEvent`.
 */
module CassandraAppenders {
  import opened Wrappers
  import opened ConsistencyLevels
  import Sessions

  // ---------------------------------------------------------------------
  // Configuration

  /** The appender's configuration attributes. */
  datatype Config = Config(hosts: string, keyspaceName: string, columnFamilyName: string,
                           consistencyLevel: DriverLevel, ttlSeconds: Option<int>, bufferSize: int,
                           synchronicity: bool)

  /** The configuration before any setter runs. */
  const DefaultConfig: Config :=
    Config("localhost", "logging", "logs", DriverOne, None, 1, false)

  /** The exceptions the appender throws. */
  datatype AppenderError =
    | InvalidConsistencyLevel   // setConsistencyLevel's IllegalArgumentException
    | NonPositiveBufferSize     // setBufferSize's IllegalArgumentException
    | SessionNotOpen            // close() before any append: the session is still null

  /** Upper-casing, for the ASCII letters. */
  function ToUpper(c: char): char
  {
    if 'a' <= c <= 'z' then (c as int - 32) as char else c
  }

  function Upper(s: string): (u: string)
    ensures |u| == |s|
    ensures forall i | 0 <= i < |s| :: u[i] == ToUpper(s[i])
  {
    seq(|s|, i requires 0 <= i < |s| => ToUpper(s[i]))
  }

  /** `String.equalsIgnoreCase`, for ASCII text. */
  predicate EqualsIgnoreCase(a: string, b: string)
  {
    Upper(a) == Upper(b)
  }

  /**
   * The if-chain of `setConsistencyLevel`: the eight level names, compared
   * ignoring case; any other string is rejected. A string names a level
   * exactly when it equals that level's name ignoring case.
   */
  function ParseConsistencyLevel(s: string): (r: Option<DriverLevel>)
    ensures forall d: DriverLevel :: r == Some(d) <==> EqualsIgnoreCase(s, d.Name())
  {
    NamesAreUpperCase();
    if EqualsIgnoreCase(s, "one") then Some(DriverOne)
    else if EqualsIgnoreCase(s, "all") then Some(DriverAll)
    else if EqualsIgnoreCase(s, "quorum") then Some(DriverQuorum)
    else if EqualsIgnoreCase(s, "any") then Some(DriverAny)
    else if EqualsIgnoreCase(s, "two") then Some(DriverTwo)
    else if EqualsIgnoreCase(s, "three") then Some(DriverThree)
    else if EqualsIgnoreCase(s, "local_quorum") then Some(DriverLocalQuorum)
    else if EqualsIgnoreCase(s, "each_quorum") then Some(DriverEachQuorum)
    else None
  }

  /** The names compared against upper-case to the driver levels' names. */
  lemma NamesAreUpperCase()
    ensures Upper("one") == DriverOne.Name() == Upper(DriverOne.Name())
    ensures Upper("all") == DriverAll.Name() == Upper(DriverAll.Name())
    ensures Upper("quorum") == DriverQuorum.Name() == Upper(DriverQuorum.Name())
    ensures Upper("any") == DriverAny.Name() == Upper(DriverAny.Name())
    ensures Upper("two") == DriverTwo.Name() == Upper(DriverTwo.Name())
    ensures Upper("three") == DriverThree.Name() == Upper(DriverThree.Name())
    ensures Upper("local_quorum") == DriverLocalQuorum.Name() == Upper(DriverLocalQuorum.Name())
    ensures Upper("each_quorum") == DriverEachQuorum.Name() == Upper(DriverEachQuorum.Name())
  {
  }

  // ---------------------------------------------------------------------
  // The INSERT built for one event

  /** A value written to a column. */
  datatype Cell = Text(text: string) | Number(number: int) | Flag(flag: bool) | Uuid(uuid: string)

  /** Where the logging call was made. */
  datatype Location = Location(fileName: Option<string>, className: Option<string>,
                               methodName: Option<string>, lineNumber: Option<string>)

  /** The thrown exception of an event: its class, message and joined stack trace. */
  datatype Thrown = Thrown(className: string, message: Option<string>, stackTrace: Option<string>)

  /**
   * What the appender reads from a log4j event. `messageClass` is the class
   * name of the message object, null when the message is null.
   */
  datatype LoggingEvent = LoggingEvent(
    loggerName: Option<string>, level: string, timeStamp: int, ndc: Option<string>,
    threadName: Option<string>, location: Location, messageClass: Option<string>,
    renderedMessage: Option<string>, throwable: Option<Thrown>)

  /** The columns of the log table. */
  datatype Column =
    | Key | LoggerName | LogLevel | LogTimestamp | ContextHostName | ContextHostIp
    | ContextAppStartTime | ContextNdc | ContextThread | ContextFile | ContextClass
    | ContextMethod | ContextLine | MessageExists | MessageClass | MessageRendered
    | ThrowableExists | ThrowableClass | ThrowableMessage | ThrowableStacktrace
  {
    /** The column's name in the table. */
    function Name(): string
    {
      match this
      case Key => "key"
      case LoggerName => "logger_name"
      case LogLevel => "log_level"
      case LogTimestamp => "log_timestamp"
      case ContextHostName => "context_host_name"
      case ContextHostIp => "context_host_ip"
      case ContextAppStartTime => "context_app_start_time"
      case ContextNdc => "context_ndc"
      case ContextThread => "context_thread"
      case ContextFile => "context_file"
      case ContextClass => "context_class"
      case ContextMethod => "context_method"
      case ContextLine => "context_line"
      case MessageExists => "message_exists"
      case MessageClass => "message_class"
      case MessageRendered => "message_rendered"
      case ThrowableExists => "throwable_exists"
      case ThrowableClass => "throwable_class"
      case ThrowableMessage => "throwable_message"
      case ThrowableStacktrace => "throwable_stacktrace"
    }

    /** Where the column comes in `InsertOrder`. */
    function Position(): (i: nat)
      ensures i < |InsertOrder| && InsertOrder[i] == this
    {
      match this
      case Key => 0
      case LoggerName => 1
      case LogLevel => 2
      case LogTimestamp => 3
      case ContextHostName => 4
      case ContextHostIp => 5
      case ContextAppStartTime => 6
      case ContextNdc => 7
      case ContextThread => 8
      case ContextFile => 9
      case ContextClass => 10
      case ContextMethod => 11
      case ContextLine => 12
      case MessageExists => 13
      case MessageClass => 14
      case MessageRendered => 15
      case ThrowableExists => 16
      case ThrowableClass => 17
      case ThrowableMessage => 18
      case ThrowableStacktrace => 19
    }
  }

  /** Distinct columns have distinct names, so no two `insert` calls set the same table column. */
  lemma ColumnNamesDistinct(a: Column, b: Column)
    ensures a.Name() == b.Name() ==> a == b
  {
  }

  /** One INSERT: its table, consistency level, TTL and the columns it sets. */
  datatype LogInsert = LogInsert(table: string, cl: DriverLevel, ttl: Option<int>, columns: map<Column, Cell>)
  {
    /** The value set for a column, or None if the INSERT leaves it out. */
    function Value(c: Column): Option<Cell>
    {
      Lookup(columns, c)
    }
  }

  /** A column's value in a row under construction, None while unset. */
  function Lookup(row: map<Column, Cell>, c: Column): Option<Cell>
  {
    if c in row then Some(row[c]) else None
  }

  /** A string column's value; null stays null. */
  function TextOf(s: Option<string>): (c: Option<Cell>)
    ensures c.Some? <==> s.Some?
    ensures s.Some? ==> c.value == Text(s.value)
  {
    if s.Some? then Some(Text(s.value)) else None
  }

  /** The `insert` helper: a null value sets no column; any other sets its column and no other. */
  function Put(row: map<Column, Cell>, c: Column, value: Option<Cell>): (r: map<Column, Cell>)
    ensures Lookup(r, c) == if value.Some? then value else Lookup(row, c)
    ensures forall n | n != c :: Lookup(r, n) == Lookup(row, n)
  {
    if value.Some? then row[c := value.value] else row
  }

  /** The columns in the order `addToBatch` calls `insert` for them. */
  const InsertOrder: seq<Column> := [
    Key, LoggerName, LogLevel, LogTimestamp, ContextHostName, ContextHostIp, ContextAppStartTime,
    ContextNdc, ContextThread, ContextFile, ContextClass, ContextMethod, ContextLine,
    MessageExists, MessageClass, MessageRendered,
    ThrowableExists, ThrowableClass, ThrowableMessage, ThrowableStacktrace]

  /**
   * The value `addToBatch` passes to `insert` for a column. None where it
   * passes null, and where it makes no call at all: the message's class
   * and text when there is no message, the exception's details when there
   * is no exception.
   */
  function ValueFor(c: Column, hostName: string, hostAddress: string, startTime: int,
                    key: string, e: LoggingEvent): Option<Cell>
  {
    match c
    case Key => Some(Uuid(key))
    case LoggerName => TextOf(e.loggerName)
    case LogLevel => Some(Text(e.level))
    case LogTimestamp => Some(Number(e.timeStamp))
    case ContextHostName => Some(Text(hostName))
    case ContextHostIp => Some(Text(hostAddress))
    case ContextAppStartTime => Some(Number(startTime))
    case ContextNdc => TextOf(e.ndc)
    case ContextThread => TextOf(e.threadName)
    case ContextFile => TextOf(e.location.fileName)
    case ContextClass => TextOf(e.location.className)
    case ContextMethod => TextOf(e.location.methodName)
    case ContextLine => TextOf(e.location.lineNumber)
    case MessageExists => Some(Flag(e.messageClass.Some?))
    case MessageClass => if e.messageClass.Some? then TextOf(e.messageClass) else None
    case MessageRendered => if e.messageClass.Some? then TextOf(e.renderedMessage) else None
    case ThrowableExists => Some(Flag(e.throwable.Some?))
    case ThrowableClass => if e.throwable.Some? then Some(Text(e.throwable.value.className)) else None
    case ThrowableMessage => if e.throwable.Some? then TextOf(e.throwable.value.message) else None
    case ThrowableStacktrace => if e.throwable.Some? then TextOf(e.throwable.value.stackTrace) else None
  }

  /** The `insert` calls for the columns `cs`, one after another. */
  function InsertAll(row: map<Column, Cell>, cs: seq<Column>, hostName: string, hostAddress: string,
                     startTime: int, key: string, e: LoggingEvent): map<Column, Cell>
    decreases |cs|
  {
    if cs == [] then row
    else InsertAll(Put(row, cs[0], ValueFor(cs[0], hostName, hostAddress, startTime, key, e)),
                   cs[1..], hostName, hostAddress, startTime, key, e)
  }

  /**
   * After the `insert` calls for `cs`, a column holds its value if it is
   * among `cs` and its value is not null, and otherwise what it held before.
   */
  lemma {:induction false} InsertAllLookup(row: map<Column, Cell>, cs: seq<Column>, hostName: string,
                                           hostAddress: string, startTime: int, key: string,
                                           e: LoggingEvent, c: Column)
    ensures var v := ValueFor(c, hostName, hostAddress, startTime, key, e);
      Lookup(InsertAll(row, cs, hostName, hostAddress, startTime, key, e), c) ==
        if c in cs && v.Some? then v else Lookup(row, c)
    decreases |cs|
  {
    if cs != [] {
      var next := Put(row, cs[0], ValueFor(cs[0], hostName, hostAddress, startTime, key, e));
      InsertAllLookup(next, cs[1..], hostName, hostAddress, startTime, key, e, c);
      assert c in cs <==> c == cs[0] || c in cs[1..];
    }
  }

  /** The row `addToBatch` writes: every column whose value is not null, with that value. */
  function Columns(hostName: string, hostAddress: string, startTime: int, key: string,
                   e: LoggingEvent): (r: map<Column, Cell>)
    ensures forall c: Column :: Lookup(r, c) == ValueFor(c, hostName, hostAddress, startTime, key, e)
  {
    map c: Column | ValueFor(c, hostName, hostAddress, startTime, key, e).Some? ::
      ValueFor(c, hostName, hostAddress, startTime, key, e).value
  }

  /**
   * Calling `insert` once per column, in any order that reaches every
   * column, builds that row: the columns are distinct, so the order of
   * the calls does not change which values end up in the INSERT.
   */
  lemma InsertsBuildColumns(order: seq<Column>, hostName: string, hostAddress: string, startTime: int,
                            key: string, e: LoggingEvent)
    requires forall c: Column :: c in order
    ensures InsertAll(map[], order, hostName, hostAddress, startTime, key, e) ==
            Columns(hostName, hostAddress, startTime, key, e)
  {
    var built := InsertAll(map[], order, hostName, hostAddress, startTime, key, e);
    var row := Columns(hostName, hostAddress, startTime, key, e);
    forall c: Column ensures Lookup(built, c) == Lookup(row, c) {
      InsertAllLookup(map[], order, hostName, hostAddress, startTime, key, e, c);
    }
    assert forall c: Column :: c in built <==> c in row by {
      forall c: Column ensures c in built <==> c in row {
        assert Lookup(built, c) == Lookup(row, c);
      }
    }
    assert forall c: Column | c in built :: built[c] == row[c] by {
      forall c: Column | c in built ensures built[c] == row[c] {
        assert Lookup(built, c) == Lookup(row, c);
      }
    }
  }

  /** `InsertOrder` names every column, so the source's sequence of calls builds the whole row. */
  lemma InsertOrderCoversAllColumns()
    ensures forall c: Column :: c in InsertOrder
  {
    forall c: Column ensures c in InsertOrder {
      assert InsertOrder[c.Position()] == c;
    }
  }

  /** The source's own sequence of `insert` calls builds the row `addToBatch` writes. */
  lemma SourceOrderBuildsColumns(hostName: string, hostAddress: string, startTime: int, key: string,
                                 e: LoggingEvent)
    ensures InsertAll(map[], InsertOrder, hostName, hostAddress, startTime, key, e) ==
            Columns(hostName, hostAddress, startTime, key, e)
  {
    InsertOrderCoversAllColumns();
    InsertsBuildColumns(InsertOrder, hostName, hostAddress, startTime, key, e);
  }

  /**
   * `addToBatch`: the INSERT into the column family for one event, with the
   * configured level, a TTL only when one is configured, and each column
   * set to the value passed for it unless that value is null.
   */
  function AddToBatch(config: Config, hostName: string, hostAddress: string, startTime: int,
                      key: string, e: LoggingEvent): (ins: LogInsert)
    ensures ins.table == config.columnFamilyName && ins.cl == config.consistencyLevel
    ensures ins.ttl == config.ttlSeconds
    ensures forall c: Column :: ins.Value(c) == ValueFor(c, hostName, hostAddress, startTime, key, e)
  {
    LogInsert(config.columnFamilyName, config.consistencyLevel, config.ttlSeconds,
              Columns(hostName, hostAddress, startTime, key, e))
  }

  /** The row key is always written; so are the level, timestamp, host and start time. */
  lemma AlwaysWritten(config: Config, hostName: string, hostAddress: string, startTime: int,
                      key: string, e: LoggingEvent)
    ensures var ins := AddToBatch(config, hostName, hostAddress, startTime, key, e);
      && ins.Value(Key) == Some(Uuid(key))
      && ins.Value(LogLevel) == Some(Text(e.level))
      && ins.Value(LogTimestamp) == Some(Number(e.timeStamp))
      && ins.Value(ContextHostName) == Some(Text(hostName))
      && ins.Value(ContextHostIp) == Some(Text(hostAddress))
      && ins.Value(ContextAppStartTime) == Some(Number(startTime))
  {
  }

  /** The logger name, diagnostic context, thread and call location are each written exactly when not null. */
  lemma WrittenUnlessNull(config: Config, hostName: string, hostAddress: string, startTime: int,
                          key: string, e: LoggingEvent)
    ensures var ins := AddToBatch(config, hostName, hostAddress, startTime, key, e);
      && ins.Value(LoggerName) == TextOf(e.loggerName)
      && ins.Value(ContextNdc) == TextOf(e.ndc)
      && ins.Value(ContextThread) == TextOf(e.threadName)
      && ins.Value(ContextFile) == TextOf(e.location.fileName)
      && ins.Value(ContextClass) == TextOf(e.location.className)
      && ins.Value(ContextMethod) == TextOf(e.location.methodName)
      && ins.Value(ContextLine) == TextOf(e.location.lineNumber)
  {
  }

  /**
   * `message_exists` says whether the event has a message; the message's
   * class is written exactly when it has one, and its rendered text only
   * then (and only when not null).
   */
  lemma MessageColumnsIffMessage(config: Config, hostName: string, hostAddress: string, startTime: int,
                                 key: string, e: LoggingEvent)
    ensures var ins := AddToBatch(config, hostName, hostAddress, startTime, key, e);
      && ins.Value(MessageExists) == Some(Flag(e.messageClass.Some?))
      && (ins.Value(MessageClass).Some? <==> e.messageClass.Some?)
      && (ins.Value(MessageRendered).Some? <==> e.messageClass.Some? && e.renderedMessage.Some?)
  {
  }

  /**
   * `throwable_exists` says whether the event carries an exception; its
   * class is written exactly when it does, its message and stack trace
   * only then (and only when not null).
   */
  lemma ThrowableColumnsIffThrowable(config: Config, hostName: string, hostAddress: string, startTime: int,
                                     key: string, e: LoggingEvent)
    ensures var ins := AddToBatch(config, hostName, hostAddress, startTime, key, e);
      && ins.Value(ThrowableExists) == Some(Flag(e.throwable.Some?))
      && (ins.Value(ThrowableClass).Some? <==> e.throwable.Some?)
      && (ins.Value(ThrowableMessage).Some? <==> e.throwable.Some? && e.throwable.value.message.Some?)
      && (ins.Value(ThrowableStacktrace).Some? <==> e.throwable.Some? && e.throwable.value.stackTrace.Some?)
  {
  }

  // ---------------------------------------------------------------------
  // The appender

  class CassandraAppender {
    var hosts: string
    var keyspaceName: string
    var columnFamilyName: string
    var consistencyLevel: DriverLevel
    var ttlSeconds: Option<int>
    var bufferSize: int
    var synchronicity: bool

    /** The local host's name and address, looked up once by the constructor. */
    const hostName: string
    const hostAddress: string
    /** `LoggingEvent.getStartTime()`. */
    const startTime: int
    /** The row keys, one per event written, in the order they are drawn. */
    const uuids: nat -> string
    /** How many keys have been drawn. */
    var issued: nat

    /** The connection; it is opened by the first append. */
    const session: Sessions.Session<seq<LogInsert>>
    var initialized: bool
    /** The buffered events, oldest first. */
    var queue: seq<LoggingEvent>

    ghost predicate Valid()
      reads this
    {
      && bufferSize >= 1
      && (!initialized ==> queue == [])
    }

    function Configuration(): Config
      reads this
    {
      Config(hosts, keyspaceName, columnFamilyName, consistencyLevel, ttlSeconds, bufferSize, synchronicity)
    }

    /** The batch written for `events` under `config` when the first of them takes key number `firstKey`. */
    function BatchOf(config: Config, events: seq<LoggingEvent>, firstKey: nat): (b: seq<LogInsert>)
      ensures |b| == |events|
      ensures forall i | 0 <= i < |events| ::
        b[i] == AddToBatch(config, hostName, hostAddress, startTime, uuids(firstKey + i), events[i])
    {
      seq(|events|, i requires 0 <= i < |events| =>
        AddToBatch(config, hostName, hostAddress, startTime, uuids(firstKey + i), events[i]))
    }

    /** How a flush of `events` reaches the session: a blocking or an asynchronous execute. */
    function Submission(config: Config, events: seq<LoggingEvent>, firstKey: nat)
      : Sessions.SessionCall<seq<LogInsert>>
    {
      if config.synchronicity then Sessions.ExecuteCall(BatchOf(config, events, firstKey))
      else Sessions.ExecuteAsyncCall(BatchOf(config, events, firstKey))
    }

    constructor (hostName: string, hostAddress: string, startTime: int, uuids: nat -> string,
                 session: Sessions.Session<seq<LogInsert>>)
      ensures Valid() && Configuration() == DefaultConfig
      ensures !initialized && queue == [] && issued == 0
      ensures this.hostName == hostName && this.hostAddress == hostAddress
      ensures this.startTime == startTime && this.uuids == uuids && this.session == session
    {
      hosts := "localhost";
      keyspaceName := "logging";
      columnFamilyName := "logs";
      consistencyLevel := DriverOne;
      ttlSeconds := None;
      bufferSize := 1;
      synchronicity := false;
      this.hostName := hostName;
      this.hostAddress := hostAddress;
      this.startTime := startTime;
      this.uuids := uuids;
      issued := 0;
      this.session := session;
      initialized := false;
      queue := [];
    }

    method SetHosts(hosts: string)
      requires Valid()
      modifies this
      ensures Valid() && Configuration() == old(Configuration()).(hosts := hosts)
      ensures queue == old(queue) && initialized == old(initialized) && issued == old(issued)
    {
      this.hosts := hosts;
    }

    method SetKeyspaceName(keyspaceName: string)
      requires Valid()
      modifies this
      ensures Valid() && Configuration() == old(Configuration()).(keyspaceName := keyspaceName)
      ensures queue == old(queue) && initialized == old(initialized) && issued == old(issued)
    {
      this.keyspaceName := keyspaceName;
    }

    method SetColumnFamilyName(columnFamilyName: string)
      requires Valid()
      modifies this
      ensures Valid() && Configuration() == old(Configuration()).(columnFamilyName := columnFamilyName)
      ensures queue == old(queue) && initialized == old(initialized) && issued == old(issued)
    {
      this.columnFamilyName := columnFamilyName;
    }

    /** The TTL after parsing; None is a null argument. */
    method SetTtlSeconds(ttlSeconds: Option<int>)
      requires Valid()
      modifies this
      ensures Valid() && Configuration() == old(Configuration()).(ttlSeconds := ttlSeconds)
      ensures queue == old(queue) && initialized == old(initialized) && issued == old(issued)
    {
      this.ttlSeconds := ttlSeconds;
    }

    /** A size that is not positive is rejected and the old one kept. */
    method SetBufferSize(bufferSize: int) returns (r: Outcome<AppenderError>)
      requires Valid()
      modifies this
      ensures Valid()
      ensures bufferSize <= 0 ==> r == Fail(NonPositiveBufferSize) && Configuration() == old(Configuration())
      ensures bufferSize > 0 ==> r == Pass && Configuration() == old(Configuration()).(bufferSize := bufferSize)
      ensures queue == old(queue) && initialized == old(initialized) && issued == old(issued)
    {
      if bufferSize <= 0 {
        return Fail(NonPositiveBufferSize);
      }
      this.bufferSize := bufferSize;
      return Pass;
    }

    method SetSynchronicity(synchronicity: bool)
      requires Valid()
      modifies this
      ensures Valid() && Configuration() == old(Configuration()).(synchronicity := synchronicity)
      ensures queue == old(queue) && initialized == old(initialized) && issued == old(issued)
    {
      this.synchronicity := synchronicity;
    }

    /** A level name, in any case; anything else is rejected and the old level kept. */
    method SetConsistencyLevel(consistencyLevel: string) returns (r: Outcome<AppenderError>)
      requires Valid()
      modifies this
      ensures Valid()
      ensures ParseConsistencyLevel(consistencyLevel).None? ==>
        r == Fail(InvalidConsistencyLevel) && Configuration() == old(Configuration())
      ensures ParseConsistencyLevel(consistencyLevel).Some? ==>
        r == Pass && Configuration() == old(Configuration()).(consistencyLevel := ParseConsistencyLevel(consistencyLevel).value)
      ensures queue == old(queue) && initialized == old(initialized) && issued == old(issued)
    {
      var level := ParseConsistencyLevel(consistencyLevel);
      if level.None? {
        return Fail(InvalidConsistencyLevel);
      }
      this.consistencyLevel := level.value;
      return Pass;
    }

    /** The appender needs no layout. */
    function RequiresLayout(): (r: bool)
      ensures !r
    {
      false
    }

    /** Opens the connection to the configured hosts and keyspace. */
    method Initialize()
      requires Valid()
      modifies this, session
      ensures Valid() && initialized && Configuration() == old(Configuration())
      ensures queue == old(queue) && issued == old(issued)
      ensures session.calls == old(session.calls) + [Sessions.ConnectCall(hosts, keyspaceName)]
    {
      session.Connect(hosts, keyspaceName);
      initialized := true;
    }

    /**
     * Drains the queue, oldest first, into one batch with one INSERT per
     * event, and submits it; an empty queue submits nothing.
     */
    method Flush()
      requires Valid()
      modifies this, session
      ensures Valid() && queue == [] && Configuration() == old(Configuration()) && initialized == old(initialized)
      ensures issued == old(issued) + |old(queue)|
      ensures session.calls ==
        old(session.calls) + if old(queue) == [] then [] else [Submission(Configuration(), old(queue), old(issued))]
    {
      var events := queue;
      queue := [];
      if |events| <= 0 {
        return;
      }
      var next := issued;
      var batch: seq<LogInsert> := [];
      for i := 0 to |events|
        invariant next == issued + i
        invariant |batch| == i
        invariant forall j | 0 <= j < i ::
          batch[j] == AddToBatch(Configuration(), hostName, hostAddress, startTime, uuids(issued + j), events[j])
      {
        var key := uuids(next);
        next := next + 1;
        batch := batch + [AddToBatch(Configuration(), hostName, hostAddress, startTime, key, events[i])];
      }
      assert batch == BatchOf(Configuration(), events, issued);
      issued := next;
      if synchronicity {
        session.Execute(batch);
      } else {
        session.ExecuteAsync(batch);
      }
    }

    /**
     * Opens the connection on first use, queues the event, and flushes once
     * the queue holds `bufferSize` events or more. Afterwards fewer than
     * `bufferSize` events are waiting.
     */
    method Append(event: LoggingEvent)
      requires Valid()
      modifies this, session
      ensures Valid() && initialized && Configuration() == old(Configuration())
      ensures |queue| < bufferSize
      ensures var q := old(queue) + [event];
              var flushed := |q| >= bufferSize;
              && queue == (if flushed then [] else q)
              && issued == old(issued) + (if flushed then |q| else 0)
              && session.calls ==
                   old(session.calls)
                   + (if old(initialized) then [] else [Sessions.ConnectCall(hosts, keyspaceName)])
                   + (if flushed then [Submission(Configuration(), q, old(issued))] else [])
    {
      if !initialized {
        Initialize();
      }
      queue := queue + [event];
      if |queue| >= bufferSize {
        Flush();
      }
    }

    /** Flushes what is buffered, then shuts the session down. */
    method Close() returns (r: Outcome<AppenderError>)
      requires Valid()
      modifies this, session
      ensures Valid() && queue == [] && Configuration() == old(Configuration())
      ensures initialized == old(initialized) && issued == old(issued) + |old(queue)|
      ensures old(initialized) ==>
        && r == Pass
        && session.calls == old(session.calls)
             + (if old(queue) == [] then [] else [Submission(Configuration(), old(queue), old(issued))])
             + [Sessions.ShutdownCall]
      ensures !old(initialized) ==> r == Fail(SessionNotOpen) && session.calls == old(session.calls)
    {
      Flush();
      if !initialized {
        return Fail(SessionNotOpen);
      }
      session.Shutdown();
      return Pass;
    }
  }
}
