# sais-utils in Dafny

A model of the core of sais-utils, a small Java toolkit with four parts:

- a Cassandra write builder (`Mutator`). It collects inserts, deletes and
  counter updates and renders them as one CQL `BEGIN … APPLY BATCH` block.
- the mapping from the toolkit's consistency levels to the driver's.
- the argument checks of a statistical `Counter`.
- a log4j appender (`CassandraAppender`) that buffers logging events and
  writes one INSERT per event, in batches.
- distributed locks (`Lock`) on a shared cluster map, with two LIFO
  containers of locks (`LockStack` and `Locks`).

Objects that the source updates in place are Dafny classes: `Mutator`,
`CassandraAppender`, `Lock`, `LockStack` and `Locks`. The values they
produce are datatypes and functions. External systems are classes that only
record, in a ghost trace, the calls made on them:

- `Sessions.Session` stands for a Cassandra session.
- `DistributedLocks.LockMap` stands for the cluster's map of locks.

Java `null` is `Option`. An exception is a `Failure` or `Fail` result.

Things the source does that a reader might not expect:

- The `Mutator` constructor never stores its `synchronous` and `atomic`
  arguments. Both flags stay `false`, so every batch is an UNLOGGED one
  (`Mutators.EveryBatchIsUnlogged`).
- `Keyspace` never assigns its `name` field. A mutator's keyspace name is
  therefore null, and its inserts and counter updates name only the table.
- With a null value under the DELETE null policy, `insertColumn` appends the
  column delete. The `switch` then falls through to IGNORE's `break`, which
  adds nothing.
- `Mutator.execute` hands the batch to `Keyspace.execute`, which always
  waits for the result. The `synchronous` flag is never consulted.
- `close()` on an appender that never appended finds its session still null
  and throws. The model returns `Fail(SessionNotOpen)`.
- Each statement is built with a consistency level (`setConsistencyLevel`),
  but only its query string is kept and sent. The level therefore does not
  reach the batch; it matters only in that resolving it can throw. The same
  holds for the level the appender sets on each INSERT. The model keeps the
  level in the statement so that the resolution can be stated.

Modules: `Wrappers` (Option, Result, Outcome), `ConsistencyLevels`,
`Sessions`, `Keyspaces`, `Mutators`, `Counters`, `CassandraAppenders`,
`DistributedLocks`, `LockOrder` (the stack discipline shared by
`LockStack` and `Locks`), `LockStacks`, `LockTransactions`.

## Model

| member | source | states |
|---|---|---|
| ConsistencyLevels.ToCqlDriver | src/main/java/com/sais/utils/cassandra/ConsistencyLevel.java:7-20 | A null level maps to ONE. Every level maps to the driver level of the same name. |
| ConsistencyLevels.Level.ToCqlDriverCl | src/main/java/com/sais/utils/cassandra/ConsistencyLevel.java:22-24 | The instance method returns what the static mapping returns for the same level, a driver level of the same name. |
| ConsistencyLevels.LevelNamesDistinct | src/main/java/com/sais/utils/cassandra/ConsistencyLevel.java:5 | The eight levels have eight distinct names. |
| ConsistencyLevels.ToCqlDriverInjective | src/main/java/com/sais/utils/cassandra/ConsistencyLevel.java:9-17 | Distinct levels map to distinct driver levels. |
| Keyspaces.Keyspace.constructor | src/main/java/com/sais/utils/cassandra/Keyspace.java:13-18 | Opens one session on the hosts and keyspace. The name field stays null. |
| Keyspaces.Keyspace.Execute | src/main/java/com/sais/utils/cassandra/Keyspace.java:34-37 | Makes exactly one blocking execute of the batch text. |
| Mutators.ResolveCl | src/main/java/com/sais/utils/cassandra/Mutator.java:153 | The call's level wins, then the default level. With neither, the call throws. The result has the chosen level's name. |
| Mutators.ResolveTtl | src/main/java/com/sais/utils/cassandra/Mutator.java:154-158 | The call's TTL wins, then the default TTL. With neither, there is no TTL. |
| Mutators.InsertEmits | src/main/java/com/sais/utils/cassandra/Mutator.java:133-164 | Null value: a missing policy or ERROR throws, DELETE gives exactly the column delete, IGNORE gives nothing. A present value gives one keyspace-qualified insert of that value, with the resolved TTL and level. |
| Mutators.DeleteColumnEmits | src/main/java/com/sais/utils/cassandra/Mutator.java:187-199 | One column delete on the bare table, with the resolved level. It throws exactly when no level resolves. |
| Mutators.DeleteRowEmits | src/main/java/com/sais/utils/cassandra/Mutator.java:220-227 | One row delete on the bare table, with the resolved level. It throws exactly when no level resolves. |
| Mutators.CounterEmits | src/main/java/com/sais/utils/cassandra/Mutator.java:256-269 | One keyspace-qualified counter update carrying the operation (incr or decr) and the delta as given. It moves its cell by +delta (incr) or -delta (decr). It throws exactly when no level resolves. |
| Mutators.NetDeltaAppend | src/main/java/com/sais/utils/cassandra/Mutator.java:266 | The counter effects of two statement lists add up. |
| Mutators.IncrementThenDecrementCancel | src/main/java/com/sais/utils/cassandra/Mutator.java:298-311 | An increment and then a decrement by the same value leave the counter unchanged. |
| Mutators.LinesAppend | src/main/java/com/sais/utils/cassandra/Mutator.java:333-337 | Rendering two statement lists one after the other gives the two renderings concatenated. |
| Mutators.LineOfStatement | src/main/java/com/sais/utils/cassandra/Mutator.java:333-337 | Statement i is on its own tab-indented, newline-ended line, after the lines of the statements before it. |
| Mutators.LinesLength | src/main/java/com/sais/utils/cassandra/Mutator.java:333-337 | The lines are exactly as long as the statements plus two characters each. |
| Mutators.BatchTextShape | src/main/java/com/sais/utils/cassandra/Mutator.java:325-340 | The batch starts with its header and ends with `APPLY BATCH`. With no statements it is just those two. Its length is header plus lines plus trailer. |
| Mutators.Render | src/main/java/com/sais/utils/cassandra/Mutator.java:161 | Each statement is kept as its query-builder text, in order. |
| Mutators.Mutator.constructor | src/main/java/com/sais/utils/cassandra/Mutator.java:33-44 | Stores the keyspace, its name and the three defaults. `synchronous` and `atomic` are dropped and stay false. No statements. |
| Mutators.Mutator.IsSynchronous | src/main/java/com/sais/utils/cassandra/Mutator.java:78-80 | Always false. |
| Mutators.Mutator.IsAtomic | src/main/java/com/sais/utils/cassandra/Mutator.java:86-88 | Always false. |
| Mutators.Mutator.InsertColumn | src/main/java/com/sais/utils/cassandra/Mutator.java:133-164 | On success it appends exactly what `InsertEmits` gives and returns the mutator. On an exception it appends nothing. |
| Mutators.Mutator.InsertColumnWithTtl | src/main/java/com/sais/utils/cassandra/Mutator.java:113-120 | The same as InsertColumn, with the default level. |
| Mutators.Mutator.InsertColumnWithDefaults | src/main/java/com/sais/utils/cassandra/Mutator.java:99-101 | The same as InsertColumn, with the default TTL and level. |
| Mutators.Mutator.DeleteColumn | src/main/java/com/sais/utils/cassandra/Mutator.java:187-199 | Appends what `DeleteColumnEmits` gives, or nothing when it throws. |
| Mutators.Mutator.DeleteColumnWithDefaults | src/main/java/com/sais/utils/cassandra/Mutator.java:174-176 | The same as DeleteColumn with a null level, so the default applies. |
| Mutators.Mutator.DeleteRow | src/main/java/com/sais/utils/cassandra/Mutator.java:220-227 | Appends what `DeleteRowEmits` gives, or nothing when it throws. |
| Mutators.Mutator.DeleteRowWithDefaults | src/main/java/com/sais/utils/cassandra/Mutator.java:208-210 | The same as DeleteRow with a null level. |
| Mutators.Mutator.IncrementCounterColumn | src/main/java/com/sais/utils/cassandra/Mutator.java:256-269 | Appends the incr update that `CounterEmits` gives, or nothing when it throws. |
| Mutators.Mutator.IncrementCounterColumnWithDefaults | src/main/java/com/sais/utils/cassandra/Mutator.java:238-244 | The same as IncrementCounterColumn with the default level. |
| Mutators.Mutator.DecrementCounterColumn | src/main/java/com/sais/utils/cassandra/Mutator.java:298-311 | Appends the decr update that `CounterEmits` gives, or nothing when it throws. |
| Mutators.Mutator.DecrementCounterColumnWithDefaults | src/main/java/com/sais/utils/cassandra/Mutator.java:280-286 | The same as DecrementCounterColumn with the default level. |
| Mutators.Mutator.GetStatements | src/main/java/com/sais/utils/cassandra/Mutator.java:317-319 | One text per pending statement, oldest first. |
| Mutators.Mutator.GetBatchStatement | src/main/java/com/sais/utils/cassandra/Mutator.java:325-340 | The loop builds exactly the header, then one line per statement, then `APPLY BATCH`. |
| Mutators.Mutator.ToString | src/main/java/com/sais/utils/cassandra/Mutator.java:355-357 | The batch text. |
| Mutators.Mutator.Execute | src/main/java/com/sais/utils/cassandra/Mutator.java:345-347 | Makes exactly one blocking execute of the batch text. |
| Mutators.EveryBatchIsUnlogged | src/main/java/com/sais/utils/cassandra/Mutator.java:327-332 | Every mutator's batch opens `BEGIN UNLOGGED BATCH`. |
| Counters.StatType.Ordinal | src/main/java/com/sais/utils/counting/Counter.java:352-354 | Each statistic type sits at its ordinal in the declared order. |
| Counters.TimeGranularity.Ordinal | src/main/java/com/sais/utils/counting/Counter.java:361-363 | Each granularity sits at its ordinal in the declared order. |
| Counters.EnumsHaveSixDistinctValues | src/main/java/com/sais/utils/counting/Counter.java:352-363 | Each enum lists six values, none repeated, and every value of its type. |
| Counters.NewCounter | src/main/java/com/sais/utils/counting/Counter.java:28-41 | It succeeds exactly when the keyspace is given and both names are non-null and non-empty. Otherwise the first failing check, in the order keyspace, column family, name, decides the error. On success `getName()` is the given name. |
| CassandraAppenders.Upper | src/main/java/com/sais/utils/logging/CassandraAppender.java:127-142 | Upper-casing keeps the length and upper-cases each ASCII letter in place. |
| CassandraAppenders.ParseConsistencyLevel | src/main/java/com/sais/utils/logging/CassandraAppender.java:126-145 | A string gives a driver level exactly when it equals that level's name, ignoring case. Any other string is rejected. |
| CassandraAppenders.TextOf | src/main/java/com/sais/utils/logging/CassandraAppender.java:224-234 | A null string gives no column value. Any other string gives a text value. |
| CassandraAppenders.Put | src/main/java/com/sais/utils/logging/CassandraAppender.java:211-213 | A null value leaves the row as it was. Any other value sets its own column and no other. |
| CassandraAppenders.ColumnNamesDistinct | src/main/java/com/sais/utils/logging/CassandraAppender.java:223-257 | The twenty `insert` calls name twenty different columns. |
| CassandraAppenders.InsertAllLookup | src/main/java/com/sais/utils/logging/CassandraAppender.java:223-257 | After a run of `insert` calls, a column holds its value if it was among the calls and the value is not null. Otherwise it holds what it held before. |
| CassandraAppenders.InsertsBuildColumns | src/main/java/com/sais/utils/logging/CassandraAppender.java:223-257 | Calls covering every column build the same row in any order. |
| CassandraAppenders.SourceOrderBuildsColumns | src/main/java/com/sais/utils/logging/CassandraAppender.java:223-257 | The source's own sequence of calls builds that row. |
| CassandraAppenders.AddToBatch | src/main/java/com/sais/utils/logging/CassandraAppender.java:215-262 | The INSERT targets the configured column family, with the configured level and TTL. Each column holds the value passed for it, and is absent when that value is null. |
| CassandraAppenders.AlwaysWritten | src/main/java/com/sais/utils/logging/CassandraAppender.java:223-229 | The key, level, timestamp, host name, host address and start time are always written. |
| CassandraAppenders.WrittenUnlessNull | src/main/java/com/sais/utils/logging/CassandraAppender.java:224-235 | The logger name, NDC, thread, file, class, method and line are each written exactly when not null. |
| CassandraAppenders.MessageColumnsIffMessage | src/main/java/com/sais/utils/logging/CassandraAppender.java:237-245 | `message_exists` tells whether there is a message. The class is written exactly when there is one. The rendered text is written exactly when there is one and it is not null. |
| CassandraAppenders.ThrowableColumnsIffThrowable | src/main/java/com/sais/utils/logging/CassandraAppender.java:247-259 | `throwable_exists` tells whether there is an exception. Its class is written exactly when there is one. Its message and stack trace are written only then, and only when not null. |
| CassandraAppenders.CassandraAppender.BatchOf | src/main/java/com/sais/utils/logging/CassandraAppender.java:200-203 | One INSERT per event, in queue order. Each event gets the next key. |
| CassandraAppenders.CassandraAppender.constructor | src/main/java/com/sais/utils/logging/CassandraAppender.java:33-63 | Starts with the default configuration: localhost, logging, logs, ONE, no TTL, buffer 1, asynchronous. Nothing is queued and no session is open. |
| CassandraAppenders.CassandraAppender.SetHosts | src/main/java/com/sais/utils/logging/CassandraAppender.java:70-72 | Changes only the hosts. |
| CassandraAppenders.CassandraAppender.SetKeyspaceName | src/main/java/com/sais/utils/logging/CassandraAppender.java:79-81 | Changes only the keyspace name. |
| CassandraAppenders.CassandraAppender.SetColumnFamilyName | src/main/java/com/sais/utils/logging/CassandraAppender.java:88-90 | Changes only the column family. |
| CassandraAppenders.CassandraAppender.SetTtlSeconds | src/main/java/com/sais/utils/logging/CassandraAppender.java:99-101 | Changes only the TTL. Null clears it. |
| CassandraAppenders.CassandraAppender.SetBufferSize | src/main/java/com/sais/utils/logging/CassandraAppender.java:109-112 | A size of zero or less is rejected and nothing changes. Otherwise only the buffer size changes. |
| CassandraAppenders.CassandraAppender.SetSynchronicity | src/main/java/com/sais/utils/logging/CassandraAppender.java:117-119 | Changes only the synchronicity. |
| CassandraAppenders.CassandraAppender.SetConsistencyLevel | src/main/java/com/sais/utils/logging/CassandraAppender.java:126-145 | A recognised name sets that level. Anything else is rejected and nothing changes. |
| CassandraAppenders.CassandraAppender.RequiresLayout | src/main/java/com/sais/utils/logging/CassandraAppender.java:192-194 | Always false. |
| CassandraAppenders.CassandraAppender.Initialize | src/main/java/com/sais/utils/logging/CassandraAppender.java:155-161 | Connects once to the configured hosts and keyspace, and marks the appender initialized. |
| CassandraAppenders.CassandraAppender.Flush | src/main/java/com/sais/utils/logging/CassandraAppender.java:196-209 | Drains the queue. An empty queue submits nothing. Otherwise the whole queue goes as one batch, by a blocking or an asynchronous execute as configured. |
| CassandraAppenders.CassandraAppender.Append | src/main/java/com/sais/utils/logging/CassandraAppender.java:171-175 | Connects on first use, then queues the event. It flushes once the queue reaches the buffer size. Afterwards fewer than that many events wait. |
| CassandraAppenders.CassandraAppender.Close | src/main/java/com/sais/utils/logging/CassandraAppender.java:182-185 | Flushes, then shuts the session down. The appender stays initialized and the keys drawn advance by the flushed events. With no session open, it fails after the (empty) flush. |
| DistributedLocks.LockName | src/main/java/com/sais/utils/locking/Lock.java:41-46 | The prefix starts the name. With no arguments the name is exactly the prefix. |
| DistributedLocks.ArgumentsLengthAppend | src/main/java/com/sais/utils/locking/Lock.java:42-45 | The lengths the arguments add to a name add up across two argument lists. |
| DistributedLocks.LockNameLength | src/main/java/com/sais/utils/locking/Lock.java:41-46 | The name's length is the prefix's plus, for each argument, one separator and the argument's text. |
| DistributedLocks.JoinedPrefix | src/main/java/com/sais/utils/locking/Lock.java:42-45 | What the first i arguments add to the name is a prefix of what all of them add. |
| DistributedLocks.ArgumentInName | src/main/java/com/sais/utils/locking/Lock.java:41-46 | Argument i appears right after a `_`, at the offset taken up by the prefix and the earlier arguments. |
| DistributedLocks.UnlockCalls | src/main/java/com/sais/utils/locking/Lock.java:80-91 | Unlocking is two calls on the lock's own name: remove the entry, then unlock the key. |
| DistributedLocks.Lock.BuildName | src/main/java/com/sais/utils/locking/Lock.java:41-46 | The naming loop builds exactly `LockName(prefix, arguments)`. |
| DistributedLocks.Lock.constructor | src/main/java/com/sais/utils/locking/Lock.java:38-56 | The lock uses the instance's "locks" map and gets the built name. |
| DistributedLocks.Lock.OnMap | src/main/java/com/sais/utils/locking/LockStack.java:33-37 | The lock `LockStack.pushLock` builds from its map: the given map and the built name. |
| DistributedLocks.Lock.Lock | src/main/java/com/sais/utils/locking/Lock.java:58-62 | Makes one lock call on the lock's name. |
| DistributedLocks.Lock.TryLock | src/main/java/com/sais/utils/locking/Lock.java:64-78 | Makes one tryLock call on the lock's name and returns the map's answer unchanged. |
| DistributedLocks.Lock.Unlock | src/main/java/com/sais/utils/locking/Lock.java:80-91 | Removes the entry, then unlocks the key, and makes no other call. |
| LockOrder.Names | src/main/java/com/sais/utils/locking/LockStack.java:18 | The names of the held locks, top first. |
| LockOrder.ReleaseTraceAppend | src/main/java/com/sais/utils/locking/LockStack.java:52-56 | Releasing two runs of locks makes the calls of the first run, then those of the second. |
| LockOrder.ReleaseTraceShape | src/main/java/com/sais/utils/locking/LockStack.java:52-56 | Releasing n locks makes exactly 2n calls. The i-th pair removes and then unlocks the i-th lock. |
| LockOrder.Reverse | src/main/java/com/sais/utils/locking/LockStack.java:36 | The reverse of a sequence. |
| LockOrder.PushAllReverses | src/main/java/com/sais/utils/locking/LockStack.java:33-37 | Pushing names one after another puts them on the stack in reverse order, the last one on top. |
| LockOrder.LastPushedFreedFirst | src/main/java/com/sais/utils/locking/LockStack.java:52-56 | Locks pushed onto an empty stack and then released are freed in reverse order of their pushes. |
| LockStacks.LockStack.constructor | src/main/java/com/sais/utils/locking/LockStack.java:20-24 | A new stack on the given map holds no locks. |
| LockStacks.LockStack.PushLock | src/main/java/com/sais/utils/locking/LockStack.java:33-37 | Locks the new lock first, then puts it on top. The stack grows by one and the rest is unchanged. |
| LockStacks.LockStack.PopLock | src/main/java/com/sais/utils/locking/LockStack.java:43-46 | Removes the top lock, then makes its unlock calls, and leaves the rest unchanged. On an empty stack it fails and changes nothing. |
| LockStacks.LockStack.ReleaseLocks | src/main/java/com/sais/utils/locking/LockStack.java:52-56 | Ends with an empty stack. Each held lock is unlocked in turn, top first. An empty stack makes no calls. The loop ends because each pop shrinks the stack. |
| LockTransactions.Locks.constructor | src/main/java/com/sais/utils/locking/Locks.java:15-19 | A new transaction holds no locks. |
| LockTransactions.Locks.PushLock | src/main/java/com/sais/utils/locking/Locks.java:28-32 | Locks the new lock first, then puts it on top. The stack grows by one. |
| LockTransactions.Locks.PopLock | src/main/java/com/sais/utils/locking/Locks.java:38-41 | Removes and unlocks only the top lock. With no lock held it fails and changes nothing. |
| LockTransactions.Locks.ReleaseLocks | src/main/java/com/sais/utils/locking/Locks.java:47-51 | Ends with no lock held. Each lock is unlocked in turn, the most recent first. |

## Left out

- The CQL text of each statement comes from the driver's query builder, which is not part of this model. The mutator is given that rendering as a function, `queryString`. Statements are kept as values and rendered when the batch is built. The query builder is a pure function, so the source's strings stored at append time are the same.
- Mutators.Mutator.constructor: a null keyspace (a NullPointerException in the source) cannot be expressed, because the keyspace is a non-null reference.
- The getters `getKeyspace`, `getDefaultConsistencyLevel`, `getDefaultTTL` and `getDefaultNullTreatmentPolicy` are the class's public constants, not separate members. So are `Keyspace.getName` and `Keyspace.getSession`.
- Mutators.Mutator.GetStatements: the source hands out its own mutable list. The model returns the texts as a value, so a caller cannot change the mutator through it.
- Mutators.CounterEmits: a null `Long` delta is not modelled, and the delta is an unbounded integer, not a 64-bit one.
- Counters.Counter: the keyspace is a type parameter. The live code only stores it, so nothing about it is modelled.
- Counters: the time-bucketing update code in Counter.java is commented out, so it is not modelled. Nor is the `CounterService`.
- Keyspace.java's `getMutator`, `executeAsync` and `shutdown`, `CounterService` and `LockService` only wire objects together or configure the cluster. Their constructor calls do not match the shown signatures: a 4-argument `Mutator` constructor, a `Session` passed as a `Keyspace`, and an `IMap` passed where `Lock` expects a `HazelcastInstance`. `Lock.OnMap` is the lock that `LockStack` builds from its map.
- Cluster connection, `hosts.split(",")`, `Cluster.builder` and session internals are reduced to the recorded `Sessions` calls.
- CassandraAppenders.CassandraAppender.SetTtlSeconds: takes the parsed value. `Integer.parseInt`, and the exception it throws on a malformed string, are not modelled.
- CassandraAppenders.CassandraAppender.SetSynchronicity: a null `Boolean` (which would make a later flush throw) is not modelled.
- CassandraAppenders.ParseConsistencyLevel: a null string (a NullPointerException in the source) is not modelled. Case folding covers ASCII letters only, not the whole of Unicode.
- CassandraAppenders.CassandraAppender.constructor: `InetAddress` look-ups, and the exception they can throw, are replaced by the host name and address given as parameters. So are log4j's start time and the random UUID row keys, which come from a key sequence `uuids`.
- CassandraAppenders.LoggingEvent: log4j's event accessors become the datatype's fields. The stack trace is taken as already joined with newlines, so `StringUtils.join` is not modelled.
- CassandraAppenders.AddToBatch: the INSERT's columns are a map. The order of the `value` calls in the CQL text is not kept. `InsertOrder` records that order, and `SourceOrderBuildsColumns` shows it builds the same row.
- `activateOptions` is empty and is not modelled. The thread-safety of the appender's blocking queue is not modelled either.
- Hazelcast's distributed mutual exclusion (who holds which lock, blocking, `tryLock`'s answer) is not modelled. Only the order of the calls on the map is recorded.
- Lock arguments are `Object`s in the source. Here they are the texts `StringBuilder.append` writes for them, that is `String.valueOf`: `"null"` for a null argument.
- DistributedLocks.Lock.BuildName: a null prefix (a NullPointerException from `new StringBuilder`, so `pushLock` throws before any call on the map) is not modelled, because the prefix is a string.
- CassandraAppenders.AddToBatch: an event with a null level (a NullPointerException from `getLevel().toString()`) is not modelled, because the event's level is a string.
- Logging, `System.out`, `System.currentTimeMillis` and the lock's timing are left out.
