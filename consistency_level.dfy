/**
 * ConsistencyLevel.java: the library's own consistency levels and their
 * translation into the levels of the Cassandra driver.
 */
module ConsistencyLevels {
  import opened Wrappers

  /** The eight levels the library exposes. */
  datatype Level = Any | One | Two | Three | Quorum | All | LocalQuorum | EachQuorum
  {
    /** The enum constant's name. */
    function Name(): string
    {
      match this
      case Any => "ANY"
      case One => "ONE"
      case Two => "TWO"
      case Three => "THREE"
      case Quorum => "QUORUM"
      case All => "ALL"
      case LocalQuorum => "LOCAL_QUORUM"
      case EachQuorum => "EACH_QUORUM"
    }

    /** The instance form of `toCQLDriverCL`: the static mapping applied to this level. */
    function ToCqlDriverCl(): (d: DriverLevel)
      ensures d == ToCqlDriver(Some(this))
      ensures d.Name() == Name()
    {
      ToCqlDriver(Some(this))
    }
  }

  /** The driver's levels that the mapping can produce. */
  datatype DriverLevel =
    | DriverAny | DriverOne | DriverTwo | DriverThree | DriverQuorum
    | DriverAll | DriverLocalQuorum | DriverEachQuorum
  {
    /** The driver enum constant's name. */
    function Name(): string
    {
      match this
      case DriverAny => "ANY"
      case DriverOne => "ONE"
      case DriverTwo => "TWO"
      case DriverThree => "THREE"
      case DriverQuorum => "QUORUM"
      case DriverAll => "ALL"
      case DriverLocalQuorum => "LOCAL_QUORUM"
      case DriverEachQuorum => "EACH_QUORUM"
    }
  }

  /**
   * The static `toCQLDriverCL`: a null level means the driver's ONE, every
   * other level becomes the driver level of the same name. The match is
   * exhaustive, so the `AssertionError` after the switch cannot be reached.
   */
  function ToCqlDriver(cl: Option<Level>): (d: DriverLevel)
    ensures cl.None? ==> d == DriverOne
    ensures cl.Some? ==> d.Name() == cl.value.Name()
  {
    match cl
    case None => DriverOne
    case Some(level) =>
      match level
      case Any => DriverAny
      case One => DriverOne
      case Two => DriverTwo
      case Three => DriverThree
      case Quorum => DriverQuorum
      case All => DriverAll
      case LocalQuorum => DriverLocalQuorum
      case EachQuorum => DriverEachQuorum
  }

  /** Distinct levels have distinct names. */
  lemma LevelNamesDistinct(a: Level, b: Level)
    ensures a.Name() == b.Name() ==> a == b
  {
    if a != b {
      assert a.Name() != b.Name() by {
        match a
        case Any =>
        case One =>
        case Two =>
        case Three =>
        case Quorum =>
        case All =>
        case LocalQuorum =>
        case EachQuorum =>
      }
    }
  }

  /** The mapping is injective: distinct levels give distinct driver levels. */
  lemma ToCqlDriverInjective(a: Level, b: Level)
    ensures ToCqlDriver(Some(a)) == ToCqlDriver(Some(b)) ==> a == b
  {
    LevelNamesDistinct(a, b);
  }
}
