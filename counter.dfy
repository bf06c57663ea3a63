/**
 * Counter.java, as far as it is live code: argument checks on construction,
 * the name getter and the two enums. The time-bucketing update code is
 * commented out in the source and is not modelled.
 */
module Counters {
  import opened Wrappers

  /** The kinds of statistic a counter keeps. */
  datatype StatType = Counts | Sums | Squares | Means | Deviations | Variances
  {
    /** The enum's `ordinal()`. */
    function Ordinal(): (n: nat)
      ensures n < |StatTypes()| && StatTypes()[n] == this
    {
      match this
      case Counts => 0
      case Sums => 1
      case Squares => 2
      case Means => 3
      case Deviations => 4
      case Variances => 5
    }
  }

  /** The enum's `values()`, in declaration order. */
  function StatTypes(): (vs: seq<StatType>)
    ensures |vs| == 6
  {
    [Counts, Sums, Squares, Means, Deviations, Variances]
  }

  /** The time windows a counter aggregates over. */
  datatype TimeGranularity = All | Minutely | Hourly | Daily | Monthly | Yearly
  {
    /** The enum's `ordinal()`. */
    function Ordinal(): (n: nat)
      ensures n < |TimeGranularities()| && TimeGranularities()[n] == this
    {
      match this
      case All => 0
      case Minutely => 1
      case Hourly => 2
      case Daily => 3
      case Monthly => 4
      case Yearly => 5
    }
  }

  /** The enum's `values()`, in declaration order. */
  function TimeGranularities(): (vs: seq<TimeGranularity>)
    ensures |vs| == 6
  {
    [All, Minutely, Hourly, Daily, Monthly, Yearly]
  }

  /** Each enum lists every value exactly once: six of each, no repeats. */
  lemma EnumsHaveSixDistinctValues()
    ensures forall i, j | 0 <= i < j < 6 :: StatTypes()[i] != StatTypes()[j]
    ensures forall i, j | 0 <= i < j < 6 :: TimeGranularities()[i] != TimeGranularities()[j]
    ensures forall t: StatType :: t in StatTypes()
    ensures forall g: TimeGranularity :: g in TimeGranularities()
  {
    forall i, j | 0 <= i < j < 6 ensures StatTypes()[i] != StatTypes()[j] {
      assert StatTypes()[i].Ordinal() == i && StatTypes()[j].Ordinal() == j;
    }
    forall i, j | 0 <= i < j < 6 ensures TimeGranularities()[i] != TimeGranularities()[j] {
      assert TimeGranularities()[i].Ordinal() == i && TimeGranularities()[j].Ordinal() == j;
    }
    forall t: StatType ensures t in StatTypes() {
      assert StatTypes()[t.Ordinal()] == t;
    }
    forall g: TimeGranularity ensures g in TimeGranularities() {
      assert TimeGranularities()[g.Ordinal()] == g;
    }
  }

  /** The `IllegalArgumentException`s the constructor throws. */
  datatype CounterError = MissingKeyspace | MissingColumnFamily | MissingName

  /**
   * A counter: fixed at construction, never updated. `K` is the keyspace it
   * writes to, which the live code only stores.
   */
  datatype Counter<K> = Counter(keyspace: K, cfName: string, name: string)
  {
    function GetName(): string
    {
      name
    }
  }

  /** A non-null, non-empty string argument. */
  predicate Given(s: Option<string>)
  {
    s.Some? && s.value != ""
  }

  /**
   * The package-private constructor. The keyspace is checked first, then the
   * column family name, then the counter name; the first that is null (or an
   * empty string) decides the exception.
   */
  function NewCounter<K>(keyspace: Option<K>, cfName: Option<string>, name: Option<string>)
    : (r: Result<Counter<K>, CounterError>)
    ensures r.Success? <==> keyspace.Some? && Given(cfName) && Given(name)
    ensures keyspace.None? ==> r == Failure(MissingKeyspace)
    ensures keyspace.Some? && !Given(cfName) ==> r == Failure(MissingColumnFamily)
    ensures keyspace.Some? && Given(cfName) && !Given(name) ==> r == Failure(MissingName)
    ensures r.Success? ==>
      r.value.keyspace == keyspace.value && r.value.cfName == cfName.value
      && r.value.GetName() == name.value && r.value.GetName() != ""
  {
    if keyspace.None? then Failure(MissingKeyspace)
    else if cfName.None? || cfName.value == "" then Failure(MissingColumnFamily)
    else if name.None? || name.value == "" then Failure(MissingName)
    else Success(Counter(keyspace.value, cfName.value, name.value))
  }
}
