/** Shared value types of the core and its replicas. */
module Domain {

  datatype Option<+T> = None | Some(value: T)

  /** The status strings the code compares against; any other text is kept as OtherStatus. */
  datatype MarketStatus = NoStatus | Open | Suspended | OtherStatus(text: string)

  datatype BreakerReason = NoReason | BetRateSpike | LiabilitySpike | OtherReason(text: string)

  datatype MarketState = MarketState(
    marketId: string,
    status: MarketStatus,
    betCount: int,
    stakeSum: int,
    liabilityDelta: int,
    cooldownUntil: int,
    lastReason: BreakerReason,
    lastTransition: int)
  {
    /** The test that decides whether a tick emits: it must not miss any field. */
    predicate IsEqual(other: MarketState): (same: bool)
      ensures same <==> this == other
    {
      && marketId == other.marketId
      && status == other.status
      && betCount == other.betCount
      && stakeSum == other.stakeSum
      && liabilityDelta == other.liabilityDelta
      && cooldownUntil == other.cooldownUntil
      && lastReason == other.lastReason
      && lastTransition == other.lastTransition
    }
  }

  datatype EventType = MarketUpdated | MarketSuspended | MarketReopened | OtherType(text: string)

  /** A payload as its reader sees it: JSON that decodes to a market, or JSON that does not. */
  datatype Payload = Decoded(market: MarketState) | Undecodable

  datatype Event = Event(seqNo: int, id: string, ts: int, kind: EventType, marketId: string, payload: Payload)

  datatype Snapshot = Snapshot(lastSeq: int, markets: map<string, MarketState>)

  /** What a UUID generator returns: some non-empty text. Freshness is not assumed. */
  type Uuid = s: string | s != "" witness "0"

  /** The market a payload decodes to; a failed decode leaves the zero value. */
  function MarketOf(evt: Event): MarketState {
    match evt.payload
    case Decoded(market) => market
    case Undecodable => MarketState("", NoStatus, 0, 0, 0, 0, NoReason, 0)
  }

  /** Every status a market of the core can have. */
  predicate KnownStatus(status: MarketStatus) {
    status == Open || status == Suspended
  }

  /** An event whose fields are consistent with one another, as the core writes them. */
  predicate WellFormed(evt: Event) {
    && evt.seqNo >= 1
    && evt.id != ""
    && evt.marketId != ""
    && !evt.kind.OtherType?
    && evt.payload.Decoded?
    && evt.payload.market.marketId == evt.marketId
    && KnownStatus(evt.payload.market.status)
    && (evt.kind == MarketSuspended ==> evt.payload.market.status == Suspended)
    && (evt.kind == MarketReopened ==> evt.payload.market.status == Open)
  }
}
