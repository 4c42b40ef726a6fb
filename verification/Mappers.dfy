/** How requests become rows: initial status, expiry, parties, sign and group. */
module Mappers {
  import opened Domain

  /** The decimal column's rounding, from a quantity to stored hundredths. */
  type Rounding = real -> int

  /** Any store that keeps the nearest hundredth; ties may go either way. */
  ghost predicate RoundsToNearest(round: Rounding) {
    forall x: real :: -0.5 <= round(x) as real - 100.0 * x <= 0.5
  }

  datatype ProducerRequest = ProducerRequest(
    commodity: CommodityId,
    volume: real,
    isBuyingFromFarmer: bool,
    location: Option<Location>,
    farmLatitude: Option<real>,
    farmLongitude: Option<real>)

  datatype Action = Buying | Selling

  datatype DownstreamRequest = DownstreamRequest(commodity: CommodityId, volume: real, action: Action)

  function ProducerTraceability(request: ProducerRequest): Traceability {
    match request.location
    case Some(Qr) => Full
    case Some(Gps) => Full
    case Some(Manual) => Conditional
    case Some(File) => Conditional
    case None => if request.isBuyingFromFarmer then Partial else Incomplete
  }

  /** Adding a location or a farmer to a request never lowers the level of what it produces, and
      adding a location always raises it; what was read from a code or measured outranks what was
      stated. */
  lemma MoreEvidenceNeverLowers(a: ProducerRequest, b: ProducerRequest)
    ensures (a.location.None? || b.location == a.location) && (a.isBuyingFromFarmer ==> b.isBuyingFromFarmer) ==>
              !ProducerTraceability(b).Below(ProducerTraceability(a))
    ensures a.location.None? && b.location.Some? ==> ProducerTraceability(a).Below(ProducerTraceability(b))
    ensures a.location.None? && b.location.None? && !a.isBuyingFromFarmer && b.isBuyingFromFarmer ==>
              ProducerTraceability(a).Below(ProducerTraceability(b))
    ensures a.location in {Some(Manual), Some(File)} && b.location in {Some(Qr), Some(Gps)} ==>
              ProducerTraceability(a).Below(ProducerTraceability(b))
  {
  }

  function FromProducerRequest(round: Rounding, user: UserId, request: ProducerRequest, now: Time): Transaction {
    Transaction(
      kind := Producer, group := None, location := request.location, status := Accepted,
      traceability := Some(ProducerTraceability(request)),
      farmLatitude := request.farmLatitude, farmLongitude := request.farmLongitude,
      commodity := request.commodity, volume := round(request.volume),
      seller := None, buyer := Some(user), createdBy := user, createdAt := now, season := None,
      isBuyingFromFarmer := request.isBuyingFromFarmer, isAutomatic := false, expiresAt := None)
  }

  /** The seller and buyer of a new downstream transaction. */
  function Parties(user: UserId, recipient: Option<UserId>, action: Action): (Option<UserId>, Option<UserId>) {
    if action == Selling then (Some(user), recipient) else (recipient, Some(user))
  }

  function FromDownstreamRequest(round: Rounding, user: UserId, recipient: Option<UserId>, request: DownstreamRequest,
                                 now: Time, lifetime: Time): Transaction
  {
    var (seller, buyer) := Parties(user, recipient, request.action);
    Transaction(
      kind := Downstream, group := None, location := None, status := Pending, traceability := None,
      farmLatitude := None, farmLongitude := None,
      commodity := request.commodity, volume := round(request.volume),
      seller := seller, buyer := buyer, createdBy := user, createdAt := now, season := None,
      isBuyingFromFarmer := false, isAutomatic := false, expiresAt := Some(now + lifetime))
  }

  function ToAutomaticTransaction(user: UserId, commodity: CommodityId, negativeVolume: int, now: Time): Transaction {
    Transaction(
      kind := Producer, group := None, location := None, status := Accepted, traceability := Some(Incomplete),
      farmLatitude := None, farmLongitude := None,
      commodity := commodity, volume := -negativeVolume,
      seller := None, buyer := Some(user), createdBy := user, createdAt := now, season := None,
      isBuyingFromFarmer := false, isAutomatic := true, expiresAt := None)
  }

  /** Input legs carry a negative volume and the user as seller, output legs a positive one
      and the user as buyer. */
  function ToConversionTransaction(round: Rounding, user: UserId, commodity: CommodityId, volume: real,
                                   level: Traceability, isInput: bool, group: GroupId, now: Time): Transaction
  {
    Transaction(
      kind := Conversion, group := Some(group), location := None, status := Accepted, traceability := Some(level),
      farmLatitude := None, farmLongitude := None,
      commodity := commodity, volume := round(if isInput then -volume else volume),
      seller := if isInput then Some(user) else None, buyer := if isInput then None else Some(user),
      createdBy := user, createdAt := now, season := None,
      isBuyingFromFarmer := false, isAutomatic := false, expiresAt := None)
  }
}
