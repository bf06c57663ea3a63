/**
 * Mutator.java: a fluent builder that collects write statements and renders
 * them as one CQL batch.
 *
 * The text of each statement comes from the driver's query builder, which is
 * not part of this model: a statement is kept as a value saying what it
 * writes, and the query builder's rendering is a function the mutator is
 * given when it is built.
 */
module Mutators {
  import opened Wrappers
  import opened ConsistencyLevels
  import Keyspaces
  import Sessions

  /** What an insert of a null value does. */
  datatype NullPolicy = Error | Delete | Ignore

  /** An `Object` handed to the query builder, by the literal it renders as. */
  type Value = string

  /** `QueryBuilder.incr` or `QueryBuilder.decr`. */
  datatype CounterOp = Incr | Decr

  /**
   * One pending write. Inserts and counter updates name their table through
   * the mutator's keyspace; the deletes name the bare table.
   */
  datatype Statement =
    | InsertStmt(keyspace: Option<string>, table: string, keyName: string, keyValue: Value,
                 column: string, value: Value, ttl: Option<int>, cl: DriverLevel)
    | DeleteColumnStmt(table: string, keyName: string, keyValue: Value, column: string, cl: DriverLevel)
    | DeleteRowStmt(table: string, keyName: string, keyValue: Value, cl: DriverLevel)
    | CounterStmt(keyspace: Option<string>, table: string, keyName: string, keyValue: Value,
                  column: string, op: CounterOp, delta: int, cl: DriverLevel)

  /** The exceptions an append can throw. */
  datatype MutatorError =
    | NullValueRejected      // the ERROR policy's NullPointerException
    | NullPolicyMissing      // a `switch` on a null policy
    | NullConsistencyLevel   // `defaultCL.toCQLDriverCL()` on a null default

  /** The defaults a mutator resolves each call against. */
  datatype Settings = Settings(keyspaceName: Option<string>, cl: Option<Level>, ttl: Option<int>,
                               nullPolicy: Option<NullPolicy>)

  /**
   * `cl == null ? defaultCL.toCQLDriverCL() : cl.toCQLDriverCL()`: the
   * explicit level wins, then the default; with neither the call throws.
   * (The static mapping's null-means-ONE rule is never reached from here.)
   */
  function ResolveCl(cl: Option<Level>, defaultCl: Option<Level>): (r: Result<DriverLevel, MutatorError>)
    ensures r.Success? <==> cl.Some? || defaultCl.Some?
    ensures r.Failure? ==> r.error == NullConsistencyLevel
    ensures cl.Some? ==> r.value.Name() == cl.value.Name()
    ensures cl.None? && defaultCl.Some? ==> r.value.Name() == defaultCl.value.Name()
  {
    if cl.Some? then Success(cl.value.ToCqlDriverCl())
    else if defaultCl.Some? then Success(defaultCl.value.ToCqlDriverCl())
    else Failure(NullConsistencyLevel)
  }

  /** The TTL of an insert: the call's own if given, else the default, else none. */
  function ResolveTtl(ttl: Option<int>, defaultTtl: Option<int>): (r: Option<int>)
    ensures r.Some? <==> ttl.Some? || defaultTtl.Some?
    ensures ttl.Some? ==> r == ttl
    ensures ttl.None? ==> r == defaultTtl
  {
    if ttl.Some? then ttl else defaultTtl
  }

  /** What `deleteColumn` appends, or the exception it throws. */
  function DeleteColumnEmits(d: Settings, table: string, keyName: string, keyValue: Value,
                             column: string, cl: Option<Level>): (r: Result<seq<Statement>, MutatorError>)
    ensures r.Success? <==> cl.Some? || d.cl.Some?
    ensures r.Failure? ==> r.error == NullConsistencyLevel
    ensures r.Success? ==>
      && |r.value| == 1 && r.value[0].DeleteColumnStmt?
      && r.value[0].table == table && r.value[0].column == column
      && r.value[0].keyName == keyName && r.value[0].keyValue == keyValue
      && r.value[0].cl == ResolveCl(cl, d.cl).value
  {
    match ResolveCl(cl, d.cl)
    case Failure(e) => Failure(e)
    case Success(level) => Success([DeleteColumnStmt(table, keyName, keyValue, column, level)])
  }

  /** What `deleteRow` appends, or the exception it throws. */
  function DeleteRowEmits(d: Settings, table: string, keyName: string, keyValue: Value,
                          cl: Option<Level>): (r: Result<seq<Statement>, MutatorError>)
    ensures r.Success? <==> cl.Some? || d.cl.Some?
    ensures r.Failure? ==> r.error == NullConsistencyLevel
    ensures r.Success? ==>
      && |r.value| == 1 && r.value[0].DeleteRowStmt?
      && r.value[0].table == table
      && r.value[0].keyName == keyName && r.value[0].keyValue == keyValue
      && r.value[0].cl == ResolveCl(cl, d.cl).value
  {
    match ResolveCl(cl, d.cl)
    case Failure(e) => Failure(e)
    case Success(level) => Success([DeleteRowStmt(table, keyName, keyValue, level)])
  }

  /**
   * What `incrementCounterColumn` (op Incr) or `decrementCounterColumn`
   * (op Decr) appends, or the exception it throws. The delta is passed on as
   * given: its sign is not inspected, and the counter moves by +delta or
   * -delta according to the operation alone.
   */
  function CounterEmits(d: Settings, table: string, keyName: string, keyValue: Value,
                        column: string, op: CounterOp, delta: int, cl: Option<Level>)
    : (r: Result<seq<Statement>, MutatorError>)
    ensures r.Success? <==> cl.Some? || d.cl.Some?
    ensures r.Failure? ==> r.error == NullConsistencyLevel
    ensures r.Success? ==>
      && |r.value| == 1 && r.value[0].CounterStmt?
      && r.value[0].keyspace == d.keyspaceName && r.value[0].table == table
      && r.value[0].keyName == keyName && r.value[0].keyValue == keyValue
      && r.value[0].column == column && r.value[0].cl == ResolveCl(cl, d.cl).value
      && r.value[0].op == op && r.value[0].delta == delta
    ensures r.Success? ==>
      NetDelta(r.value, Cell(table, keyName, keyValue, column)) == if op == Incr then delta else -delta
  {
    match ResolveCl(cl, d.cl)
    case Failure(e) => Failure(e)
    case Success(level) => Success([CounterStmt(d.keyspaceName, table, keyName, keyValue, column, op, delta, level)])
  }

  /**
   * What `insertColumn` appends, or the exception it throws. A present value
   * gives one keyspace-qualified insert of the key and the column. A null
   * value is settled by the null policy: ERROR throws, DELETE appends the
   * column delete (the `switch` then falls through to IGNORE's `break`, which
   * adds nothing), IGNORE appends nothing.
   */
  function InsertEmits(d: Settings, table: string, keyName: string, keyValue: Value, column: string,
                       value: Option<Value>, ttl: Option<int>, cl: Option<Level>)
    : (r: Result<seq<Statement>, MutatorError>)
    ensures value.None? && d.nullPolicy.None? ==> r == Failure(NullPolicyMissing)
    ensures value.None? && d.nullPolicy == Some(Error) ==> r == Failure(NullValueRejected)
    ensures value.None? && d.nullPolicy == Some(Delete) ==>
      r == DeleteColumnEmits(d, table, keyName, keyValue, column, cl)
    ensures value.None? && d.nullPolicy == Some(Ignore) ==> r == Success([])
    ensures value.Some? ==> (r.Success? <==> cl.Some? || d.cl.Some?)
    ensures value.Some? && r.Failure? ==> r.error == NullConsistencyLevel
    ensures value.Some? && r.Success? ==>
      && |r.value| == 1 && r.value[0].InsertStmt?
      && r.value[0].keyspace == d.keyspaceName && r.value[0].table == table
      && r.value[0].keyName == keyName && r.value[0].keyValue == keyValue
      && r.value[0].column == column && r.value[0].value == value.value
      && r.value[0].ttl == ResolveTtl(ttl, d.ttl)
      && r.value[0].cl == ResolveCl(cl, d.cl).value
    ensures r.Success? ==> |r.value| <= 1
  {
    match value
    case None =>
      (match d.nullPolicy
       case None => Failure(NullPolicyMissing)
       case Some(Error) => Failure(NullValueRejected)
       case Some(Delete) => DeleteColumnEmits(d, table, keyName, keyValue, column, cl)
       case Some(Ignore) => Success([]))
    case Some(v) =>
      match ResolveCl(cl, d.cl)
      case Failure(e) => Failure(e)
      case Success(level) =>
        Success([InsertStmt(d.keyspaceName, table, keyName, keyValue, column, v, ResolveTtl(ttl, d.ttl), level)])
  }

  // ---------------------------------------------------------------------
  // Counter deltas, as the store applies them

  /** One counter column of one row. */
  datatype Cell = Cell(table: string, keyName: string, keyValue: Value, column: string)

  /** How much one statement moves the counter in `c`. */
  function Effect(s: Statement, c: Cell): int
  {
    if s.CounterStmt? && Cell(s.table, s.keyName, s.keyValue, s.column) == c then
      (if s.op == Incr then s.delta else -s.delta)
    else 0
  }

  /** How much a sequence of statements moves the counter in `c`. */
  function NetDelta(ss: seq<Statement>, c: Cell): int
  {
    if ss == [] then 0 else Effect(ss[0], c) + NetDelta(ss[1..], c)
  }

  /** The effects of two batches of statements add up. */
  lemma {:induction false} NetDeltaAppend(a: seq<Statement>, b: seq<Statement>, c: Cell)
    ensures NetDelta(a + b, c) == NetDelta(a, c) + NetDelta(b, c)
  {
    if a != [] {
      assert (a + b)[0] == a[0] && (a + b)[1..] == a[1..] + b;
      NetDeltaAppend(a[1..], b, c);
    } else {
      assert a + b == b;
    }
  }

  /**
   * Decrementing a counter by a magnitude after incrementing it by the same
   * magnitude leaves it where it was, whatever the sign of the magnitude.
   */
  lemma IncrementThenDecrementCancel(d: Settings, before: seq<Statement>, table: string, keyName: string,
                                     keyValue: Value, column: string, delta: int, cl: Option<Level>)
    requires cl.Some? || d.cl.Some?
    ensures var inc := CounterEmits(d, table, keyName, keyValue, column, Incr, delta, cl);
            var dec := CounterEmits(d, table, keyName, keyValue, column, Decr, delta, cl);
            NetDelta(before + inc.value + dec.value, Cell(table, keyName, keyValue, column))
              == NetDelta(before, Cell(table, keyName, keyValue, column))
  {
    var c := Cell(table, keyName, keyValue, column);
    var inc := CounterEmits(d, table, keyName, keyValue, column, Incr, delta, cl);
    var dec := CounterEmits(d, table, keyName, keyValue, column, Decr, delta, cl);
    NetDeltaAppend(before + inc.value, dec.value, c);
    NetDeltaAppend(before, inc.value, c);
  }

  // ---------------------------------------------------------------------
  // The batch text

  const AtomicHeader: string := "BEGIN BATCH\n"
  const UnloggedHeader: string := "BEGIN UNLOGGED BATCH\n"
  const Trailer: string := "APPLY BATCH"

  function Header(atomic: bool): string
  {
    if atomic then AtomicHeader else UnloggedHeader
  }

  /** One tab-indented, newline-terminated line per statement, in order. */
  function Lines(ls: seq<string>): string
  {
    if ls == [] then "" else Lines(ls[..|ls| - 1]) + "\t" + ls[|ls| - 1] + "\n"
  }

  /** The whole batch: header, one line per statement, `APPLY BATCH`. */
  function BatchText(atomic: bool, ls: seq<string>): string
  {
    Header(atomic) + Lines(ls) + Trailer
  }

  /** The total size of the lines: each statement plus its tab and newline. */
  function LinesSize(ls: seq<string>): nat
  {
    if ls == [] then 0 else LinesSize(ls[..|ls| - 1]) + |ls[|ls| - 1]| + 2
  }

  /** Rendering the concatenation of two lists concatenates their renderings. */
  lemma {:induction false} LinesAppend(a: seq<string>, b: seq<string>)
    ensures Lines(a + b) == Lines(a) + Lines(b)
    decreases |b|
  {
    if b != [] {
      var b' := b[..|b| - 1];
      assert (a + b)[..|a + b| - 1] == a + b';
      LinesAppend(a, b');
    } else {
      assert a + b == a;
    }
  }

  /** Statement `i` stands on its own line, after the lines of the statements before it. */
  lemma LineOfStatement(ls: seq<string>, i: nat)
    requires i < |ls|
    ensures Lines(ls) == Lines(ls[..i]) + "\t" + ls[i] + "\n" + Lines(ls[i + 1..])
  {
    assert ls == ls[..i + 1] + ls[i + 1..];
    LinesAppend(ls[..i + 1], ls[i + 1..]);
    assert ls[..i + 1][..i] == ls[..i];
  }

  /** The lines take exactly the statements' length plus two characters each. */
  lemma {:induction false} LinesLength(ls: seq<string>)
    ensures |Lines(ls)| == LinesSize(ls)
    decreases |ls|
  {
    if ls != [] {
      LinesLength(ls[..|ls| - 1]);
    }
  }

  /**
   * The batch opens with its header and closes with `APPLY BATCH`; with no
   * statements it is exactly the two; its length is the header's, the lines'
   * and the trailer's.
   */
  lemma BatchTextShape(atomic: bool, ls: seq<string>)
    ensures Header(atomic) <= BatchText(atomic, ls)
    ensures BatchText(atomic, ls)[|BatchText(atomic, ls)| - |Trailer|..] == Trailer
    ensures ls == [] ==> BatchText(atomic, ls) == Header(atomic) + Trailer
    ensures |BatchText(atomic, ls)| == |Header(atomic)| + LinesSize(ls) + |Trailer|
  {
    LinesLength(ls);
    var t := BatchText(atomic, ls);
    assert t == (Header(atomic) + Lines(ls)) + Trailer;
  }

  /** The query builder's text of each statement, in order. */
  function Render(queryString: Statement -> string, ss: seq<Statement>): (r: seq<string>)
    ensures |r| == |ss|
    ensures forall i | 0 <= i < |ss| :: r[i] == queryString(ss[i])
  {
    seq(|ss|, i requires 0 <= i < |ss| => queryString(ss[i]))
  }

  // ---------------------------------------------------------------------
  // The builder

  class Mutator {
    const keyspace: Keyspaces.Keyspace
    const keyspaceName: Option<string>
    const defaultCL: Option<Level>
    const defaultTTL: Option<int>
    const defaultNullTreatmentPolicy: Option<NullPolicy>
    /** Never stored by the constructor, so it keeps Java's default. */
    const synchronous: bool := false
    /** Never stored by the constructor, so it keeps Java's default. */
    const atomic: bool := false
    /** The query builder's `getQueryString()`. */
    const queryString: Statement -> string
    /** The pending statements, oldest first. */
    var statements: seq<Statement>

    /**
     * Takes the keyspace's name and the three defaults. The `synchronous`
     * and `atomic` arguments are accepted and dropped.
     */
    constructor (keyspace: Keyspaces.Keyspace, defaultTTL: Option<int>, defaultConsistencyLevel: Option<Level>,
                 defaultNullTreatmentPolicy: Option<NullPolicy>, synchronous: bool, atomic: bool,
                 queryString: Statement -> string)
      ensures this.keyspace == keyspace && keyspaceName == keyspace.name
      ensures defaultTTL == this.defaultTTL && defaultCL == defaultConsistencyLevel
      ensures this.defaultNullTreatmentPolicy == defaultNullTreatmentPolicy
      ensures this.queryString == queryString
      ensures !this.synchronous && !this.atomic
      ensures statements == []
    {
      this.keyspace := keyspace;
      this.keyspaceName := keyspace.name;
      this.defaultTTL := defaultTTL;
      this.defaultCL := defaultConsistencyLevel;
      this.defaultNullTreatmentPolicy := defaultNullTreatmentPolicy;
      this.queryString := queryString;
      statements := [];
    }

    function Defaults(): Settings
    {
      Settings(keyspaceName, defaultCL, defaultTTL, defaultNullTreatmentPolicy)
    }

    /** Always false: the flag is never set. */
    function IsSynchronous(): (r: bool)
      ensures !r
    {
      synchronous
    }

    /** Always false: the flag is never set, so every batch is UNLOGGED. */
    function IsAtomic(): (r: bool)
      ensures !r
    {
      atomic
    }

    /**
     * A call that would append `e` did so: on success the mutator is
     * returned and the statements end with `e`'s; on an exception nothing
     * was appended.
     */
    ghost predicate Applied(e: Result<seq<Statement>, MutatorError>, before: seq<Statement>,
                            r: Result<Mutator, MutatorError>)
      reads this
    {
      match e
      case Success(s) => r == Success(this) && statements == before + s
      case Failure(err) => r == Failure(err) && statements == before
    }

    method InsertColumn(tableName: string, keyName: string, keyValue: Value, columnName: string,
                        columnValue: Option<Value>, columnTTL: Option<int>, cl: Option<Level>)
      returns (r: Result<Mutator, MutatorError>)
      modifies this
      ensures Applied(InsertEmits(Defaults(), tableName, keyName, keyValue, columnName, columnValue, columnTTL, cl),
                      old(statements), r)
    {
      if columnValue.None? {
        match defaultNullTreatmentPolicy
        case None =>
          return Failure(NullPolicyMissing);
        case Some(Error) =>
          return Failure(NullValueRejected);
        case Some(Delete) =>
          var deleted := DeleteColumn(tableName, keyName, keyValue, columnName, cl);
          if deleted.Failure? {
            return Failure(deleted.error);
          }
          // falls through to IGNORE's `break`
        case Some(Ignore) =>
      } else {
        var level := ResolveCl(cl, defaultCL);
        if level.Failure? {
          return Failure(level.error);
        }
        var ttl: Option<int> := None;
        if columnTTL.Some? {
          ttl := columnTTL;
        } else if defaultTTL.Some? {
          ttl := defaultTTL;
        }
        statements := statements + [InsertStmt(keyspaceName, tableName, keyName, keyValue, columnName,
                                               columnValue.value, ttl, level.value)];
      }
      return Success(this);
    }

    /** The six-argument overload: the default consistency level. */
    method InsertColumnWithTtl(tableName: string, keyName: string, keyValue: Value, columnName: string,
                               columnValue: Option<Value>, columnTTL: Option<int>)
      returns (r: Result<Mutator, MutatorError>)
      modifies this
      ensures Applied(InsertEmits(Defaults(), tableName, keyName, keyValue, columnName, columnValue, columnTTL, defaultCL),
                      old(statements), r)
    {
      r := InsertColumn(tableName, keyName, keyValue, columnName, columnValue, columnTTL, defaultCL);
    }

    /** The five-argument overload: the default TTL and consistency level. */
    method InsertColumnWithDefaults(tableName: string, keyName: string, keyValue: Value, columnName: string,
                                    columnValue: Option<Value>)
      returns (r: Result<Mutator, MutatorError>)
      modifies this
      ensures Applied(InsertEmits(Defaults(), tableName, keyName, keyValue, columnName, columnValue, defaultTTL, defaultCL),
                      old(statements), r)
    {
      r := InsertColumn(tableName, keyName, keyValue, columnName, columnValue, defaultTTL, defaultCL);
    }

    method DeleteColumn(tableName: string, keyName: string, keyValue: Value, columnName: string,
                        cl: Option<Level>)
      returns (r: Result<Mutator, MutatorError>)
      modifies this
      ensures Applied(DeleteColumnEmits(Defaults(), tableName, keyName, keyValue, columnName, cl), old(statements), r)
    {
      var level := ResolveCl(cl, defaultCL);
      if level.Failure? {
        return Failure(level.error);
      }
      statements := statements + [DeleteColumnStmt(tableName, keyName, keyValue, columnName, level.value)];
      return Success(this);
    }

    /** The four-argument overload: a null level, so the default applies. */
    method DeleteColumnWithDefaults(tableName: string, keyName: string, keyValue: Value, columnName: string)
      returns (r: Result<Mutator, MutatorError>)
      modifies this
      ensures Applied(DeleteColumnEmits(Defaults(), tableName, keyName, keyValue, columnName, None), old(statements), r)
    {
      r := DeleteColumn(tableName, keyName, keyValue, columnName, None);
    }

    method DeleteRow(tableName: string, keyName: string, keyValue: Value, cl: Option<Level>)
      returns (r: Result<Mutator, MutatorError>)
      modifies this
      ensures Applied(DeleteRowEmits(Defaults(), tableName, keyName, keyValue, cl), old(statements), r)
    {
      var level := ResolveCl(cl, defaultCL);
      if level.Failure? {
        return Failure(level.error);
      }
      statements := statements + [DeleteRowStmt(tableName, keyName, keyValue, level.value)];
      return Success(this);
    }

    /** The three-argument overload: a null level, so the default applies. */
    method DeleteRowWithDefaults(tableName: string, keyName: string, keyValue: Value)
      returns (r: Result<Mutator, MutatorError>)
      modifies this
      ensures Applied(DeleteRowEmits(Defaults(), tableName, keyName, keyValue, None), old(statements), r)
    {
      r := DeleteRow(tableName, keyName, keyValue, None);
    }

    method IncrementCounterColumn(tableName: string, keyName: string, keyValue: Value, counterName: string,
                                  counterValue: int, cl: Option<Level>)
      returns (r: Result<Mutator, MutatorError>)
      modifies this
      ensures Applied(CounterEmits(Defaults(), tableName, keyName, keyValue, counterName, Incr, counterValue, cl),
                      old(statements), r)
    {
      var level := ResolveCl(cl, defaultCL);
      if level.Failure? {
        return Failure(level.error);
      }
      statements := statements + [CounterStmt(keyspaceName, tableName, keyName, keyValue, counterName,
                                              Incr, counterValue, level.value)];
      return Success(this);
    }

    /** The five-argument overload: the default consistency level. */
    method IncrementCounterColumnWithDefaults(tableName: string, keyName: string, keyValue: Value,
                                              counterName: string, counterValue: int)
      returns (r: Result<Mutator, MutatorError>)
      modifies this
      ensures Applied(CounterEmits(Defaults(), tableName, keyName, keyValue, counterName, Incr, counterValue, defaultCL),
                      old(statements), r)
    {
      r := IncrementCounterColumn(tableName, keyName, keyValue, counterName, counterValue, defaultCL);
    }

    method DecrementCounterColumn(tableName: string, keyName: string, keyValue: Value, counterName: string,
                                  counterValue: int, cl: Option<Level>)
      returns (r: Result<Mutator, MutatorError>)
      modifies this
      ensures Applied(CounterEmits(Defaults(), tableName, keyName, keyValue, counterName, Decr, counterValue, cl),
                      old(statements), r)
    {
      var level := ResolveCl(cl, defaultCL);
      if level.Failure? {
        return Failure(level.error);
      }
      statements := statements + [CounterStmt(keyspaceName, tableName, keyName, keyValue, counterName,
                                              Decr, counterValue, level.value)];
      return Success(this);
    }

    /** The five-argument overload: the default consistency level. */
    method DecrementCounterColumnWithDefaults(tableName: string, keyName: string, keyValue: Value,
                                              counterName: string, counterValue: int)
      returns (r: Result<Mutator, MutatorError>)
      modifies this
      ensures Applied(CounterEmits(Defaults(), tableName, keyName, keyValue, counterName, Decr, counterValue, defaultCL),
                      old(statements), r)
    {
      r := DecrementCounterColumn(tableName, keyName, keyValue, counterName, counterValue, defaultCL);
    }

    /** The query text of every pending statement, oldest first. */
    function GetStatements(): (r: seq<string>)
      reads this
      ensures |r| == |statements|
      ensures forall i | 0 <= i < |r| :: r[i] == queryString(statements[i])
    {
      Render(queryString, statements)
    }

    /** The batch this mutator would send, as a function of its state. */
    function Text(): string
      reads this
    {
      BatchText(atomic, GetStatements())
    }

    /** Renders the batch; the statements are left as they are. */
    method GetBatchStatement() returns (text: string)
      ensures text == BatchText(atomic, GetStatements())
    {
      ghost var ls := GetStatements();
      text := if atomic then AtomicHeader else UnloggedHeader;
      var i := 0;
      while i < |statements|
        invariant 0 <= i <= |statements|
        invariant text == Header(atomic) + Lines(ls[..i])
      {
        assert ls[..i + 1][..i] == ls[..i];
        text := text + "\t" + queryString(statements[i]) + "\n";
        i := i + 1;
      }
      assert ls[..i] == ls;
      text := text + Trailer;
    }

    /** `toString()`: the batch text. */
    method ToString() returns (text: string)
      ensures text == Text()
    {
      text := GetBatchStatement();
    }

    /** Hands the rendered batch to the keyspace, which executes it and waits. */
    method Execute()
      modifies keyspace.session
      ensures keyspace.session.calls == old(keyspace.session.calls) + [Sessions.ExecuteCall(Text())]
    {
      var text := GetBatchStatement();
      keyspace.Execute(text);
    }
  }

  /** Whatever was appended, a mutator's batch is an UNLOGGED one. */
  lemma EveryBatchIsUnlogged(m: Mutator)
    ensures UnloggedHeader <= m.Text()
  {
    BatchTextShape(m.atomic, m.GetStatements());
  }
}
