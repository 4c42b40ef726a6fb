/** The rows of the commodity ledger and the enumerations they use. */
module Domain {

  type TransactionId = nat
  type UserId = nat
  type CommodityId = nat
  type GroupId = nat
  type SeasonId = nat

  /** Seconds since the epoch. */
  type Time = int

  datatype Option<+T> = None | Some(value: T)

  datatype Kind = Producer | Downstream | Conversion

  datatype Status = Pending | Accepted | Rejected | NoResponse

  datatype Location = Qr | Manual | File | Gps

  /** The four-level scale; `Below` is the order that every minimum uses. */
  datatype Traceability = Full | Conditional | Partial | Incomplete {
    function Rank(): nat {
      match this
      case Full => 4
      case Conditional => 3
      case Partial => 2
      case Incomplete => 1
    }

    predicate Below(other: Traceability) {
      Rank() < other.Rank()
    }
  }

  /** The order of the scale, from untraceable goods to fully traced ones. */
  lemma ScaleIsOrdered(a: Traceability, b: Traceability)
    ensures Incomplete.Below(Partial) && Partial.Below(Conditional) && Conditional.Below(Full)
    ensures (a == b && !a.Below(b) && !b.Below(a)) || (a != b && (a.Below(b) <==> !b.Below(a)))
  {
  }

  /** One row of the transactions table. `volume` is stored in hundredths and
      `None` is the null of a nullable column. */
  datatype Transaction = Transaction(
    kind: Kind,
    group: Option<GroupId>,
    location: Option<Location>,
    status: Status,
    traceability: Option<Traceability>,
    farmLatitude: Option<real>,
    farmLongitude: Option<real>,
    commodity: CommodityId,
    volume: int,
    seller: Option<UserId>,
    buyer: Option<UserId>,
    createdBy: UserId,
    createdAt: Time,
    season: Option<SeasonId>,
    isBuyingFromFarmer: bool,
    isAutomatic: bool,
    expiresAt: Option<Time>)

  type Table = map<TransactionId, Transaction>

  function Max(x: int, y: int): int {
    if x < y then y else x
  }

  /** Python's `min` over a non-empty collection of levels: its result is one of
      them and none of them is below it. */
  function Lowest(levels: set<Traceability>): (lowest: Traceability)
    requires levels != {}
    ensures lowest in levels
    ensures forall level :: level in levels ==> !level.Below(lowest)
  {
    if Incomplete in levels then Incomplete
    else if Partial in levels then Partial
    else if Conditional in levels then Conditional
    else
      assert Full in levels by {
        var level :| level in levels;
        assert level == Full;
      }
      Full
  }

  /** The minimum is unique, so two collections with mutual bounds share it. */
  lemma LowestIsUnique(levels: set<Traceability>, level: Traceability)
    requires level in levels
    requires forall other :: other in levels ==> !other.Below(level)
    ensures Lowest(levels) == level
  {
    assert !Lowest(levels).Below(level) && !level.Below(Lowest(levels));
  }

  /** The levels stored in the given rows, nulls dropped. */
  function Levels(txs: Table, ids: set<TransactionId>): set<Traceability> {
    set i | i in ids && i in txs && txs[i].traceability.Some? :: txs[i].traceability.value
  }

  /** Accepted rows whose buyer column equals `buyer` (both may be null), restricted to
      some commodities. */
  function Purchases(txs: Table, buyer: Option<UserId>, commodities: set<CommodityId>): (ids: set<TransactionId>)
  {
    set i | i in txs && txs[i].status.Accepted? && txs[i].buyer == buyer && txs[i].commodity in commodities
  }
}
