/**
 Model of the match-verifier pallet: the `Bid` and `Offer` records, the
 `ValidTrades` registry with its default-false reads, the event log, and the
 `verify_match` dispatchable as a pure step from one pallet state to the next.

 The dispatchable checks the origin, then three field equalities in order, and
 only after all of them writes the registry and deposits one event. A failed
 check (the source's `ensure_signed` error or an `assert_eq!` panic) is a
 failure result here, and the state it returns is the state it was given.
 */
module Verifier {

  /** Rust's `u32`: trade ids and energy quantities. */
  newtype u32 = x: int | 0 <= x < 0x1_0000_0000

  /** Rust's `u8`; the source's `Vec<u8>` fields are `Bytes`. */
  newtype u8 = x: int | 0 <= x < 0x100

  type Bytes = seq<u8>

  datatype Option<T> = None | Some(value: T)

  /** The buyer's half of a trade. Its market and asset ids are optional. */
  datatype Bid = Bid(
    uuid: u32,
    market_uuid: Option<Bytes>,
    asset_uuid: Option<Bytes>,
    max_energy: u32,
    time_slot: Bytes)

  /** The seller's half of a trade. Its market and asset ids are required. */
  datatype Offer = Offer(
    uuid: u32,
    market_uuid: Bytes,
    asset_uuid: Bytes,
    energy_type: Bytes,
    max_energy: u32,
    time_slot: Bytes)

  /** The origin of a call, in the shapes the host runtime distinguishes. */
  datatype Origin = Signed(who: nat) | Root | Unsigned

  /** The pallet's event vocabulary. `TradeIdStored` is declared but never deposited. */
  datatype Event = TradeIdStored(id: u32) | MatchVerified(bid_uuid: u32, offer_uuid: u32)

  /**
   Why a call failed: `BadOrigin` is the error of the signed-origin check; the
   other three stand for the three `assert_eq!` comparisons, in their order.
   */
  datatype DispatchError = BadOrigin | TradeIdMismatch | MarketMismatch | AssetMismatch

  datatype DispatchResult = Ok | Err(error: DispatchError)

  /** The pallet's storage together with the events deposited so far. */
  datatype State = State(validTrades: map<u32, bool>, events: seq<Event>)

  /** The outcome of one dispatch: its result and the state after it. */
  datatype Dispatched = Dispatched(result: DispatchResult, post: State)

  /** Empty storage and no events. */
  const Genesis: State := State(map[], [])

  /** A `ValueQuery` read of the registry: a key never inserted reads as `false`. */
  function ValidTrade(trades: map<u32, bool>, id: u32): bool
  {
    if id in trades then trades[id] else false
  }

  /** A read of the registry in state `s`. */
  function Verified(s: State, id: u32): bool
  {
    ValidTrade(s.validTrades, id)
  }

  /**
   When a bid and an offer describe the same trade: the same trade id, and the
   bid carries a market id and an asset id, each equal to the offer's.
   */
  predicate SameTrade(bid: Bid, offer: Offer)
  {
    && bid.uuid == offer.uuid
    && bid.market_uuid.Some? && bid.market_uuid.value == offer.market_uuid
    && bid.asset_uuid.Some? && bid.asset_uuid.value == offer.asset_uuid
  }

  /** Every key outside `id` reads the same before and after. */
  ghost predicate OnlyKeyChanged(before: map<u32, bool>, after: map<u32, bool>, id: u32)
  {
    forall k :: k != id ==> ValidTrade(after, k) == ValidTrade(before, k)
  }

  /** No key that read `true` before reads `false` after. */
  ghost predicate NeverUnset(before: map<u32, bool>, after: map<u32, bool>)
  {
    forall k :: ValidTrade(before, k) ==> ValidTrade(after, k)
  }

  /** The origin check: only a signed origin gets through. */
  function EnsureSigned(origin: Origin): (r: DispatchResult)
    ensures r == Ok <==> origin.Signed?
    ensures r.Err? ==> r.error == BadOrigin
  {
    match origin
    case Signed(_) => Ok
    case _ => Err(BadOrigin)
  }

  /**
   The three comparisons of the dispatchable, in order; the first that fails
   decides the error.
   */
  function CheckMatch(bid: Bid, offer: Offer): (r: DispatchResult)
    ensures r == Ok <==> SameTrade(bid, offer)
    ensures r == Err(TradeIdMismatch) <==> bid.uuid != offer.uuid
    ensures r == Err(MarketMismatch) <==>
              bid.uuid == offer.uuid && (bid.market_uuid.None? || bid.market_uuid.value != offer.market_uuid)
    ensures r == Err(AssetMismatch) <==>
              && bid.uuid == offer.uuid
              && bid.market_uuid == Some(offer.market_uuid)
              && (bid.asset_uuid.None? || bid.asset_uuid.value != offer.asset_uuid)
    ensures r != Err(BadOrigin)
  {
    if bid.uuid != offer.uuid then Err(TradeIdMismatch)
    else if bid.market_uuid != Some(offer.market_uuid) then Err(MarketMismatch)
    else if bid.asset_uuid != Some(offer.asset_uuid) then Err(AssetMismatch)
    else Ok
  }

  /** A storage insert into the registry. */
  function Insert(s: State, id: u32, value: bool): (r: State)
    ensures ValidTrade(r.validTrades, id) == value
    ensures OnlyKeyChanged(s.validTrades, r.validTrades, id)
    ensures r.events == s.events
  {
    s.(validTrades := s.validTrades[id := value])
  }

  /** Depositing an event appends it to the log. */
  function DepositEvent(s: State, e: Event): (r: State)
    ensures r.validTrades == s.validTrades
    ensures |r.events| == |s.events| + 1
    ensures r.events[..|s.events|] == s.events && r.events[|s.events|] == e
  {
    s.(events := s.events + [e])
  }

  /**
   The `verify_match` dispatchable on the flattened fields of one bid and one
   offer. The bid's market and asset ids are always built present, so each of
   those checks is plain equality of the two byte sequences.
   */
  function VerifyMatch(
    s: State,
    origin: Origin,
    bid_uuid: u32,
    bid_market_uuid: Bytes,
    bid_asset_uuid: Bytes,
    bid_max_energy: u32,
    bid_time_slot: Bytes,
    offer_uuid: u32,
    offer_market_uuid: Bytes,
    offer_asset_uuid: Bytes,
    offer_energy_type: Bytes,
    offer_max_energy: u32,
    offer_time_slot: Bytes): (r: Dispatched)
    // success exactly when signed and the three ids agree
    ensures r.result == Ok <==>
              && origin.Signed?
              && bid_uuid == offer_uuid
              && bid_market_uuid == offer_market_uuid
              && bid_asset_uuid == offer_asset_uuid
    // which check fails first
    ensures !origin.Signed? ==> r.result == Err(BadOrigin)
    ensures origin.Signed? && bid_uuid != offer_uuid ==> r.result == Err(TradeIdMismatch)
    ensures (origin.Signed? && bid_uuid == offer_uuid && bid_market_uuid != offer_market_uuid) ==>
              r.result == Err(MarketMismatch)
    ensures (&& origin.Signed? && bid_uuid == offer_uuid && bid_market_uuid == offer_market_uuid
             && bid_asset_uuid != offer_asset_uuid) ==>
              r.result == Err(AssetMismatch)
    // a failure writes nothing and deposits nothing
    ensures r.result.Err? ==> r.post == s
    // a success marks the trade and deposits exactly one event
    ensures r.result.Ok? ==> Verified(r.post, bid_uuid)
    ensures r.result.Ok? ==> r.post.events == s.events + [MatchVerified(bid_uuid, offer_uuid)]
    // in every case only the bid's key can change, and never back to false
    ensures OnlyKeyChanged(s.validTrades, r.post.validTrades, bid_uuid)
    ensures NeverUnset(s.validTrades, r.post.validTrades)
  {
    var signed := EnsureSigned(origin);
    if signed.Err? then Dispatched(signed, s)
    else
      var bid := Bid(bid_uuid, Some(bid_market_uuid), Some(bid_asset_uuid), bid_max_energy, bid_time_slot);
      var offer := Offer(offer_uuid, offer_market_uuid, offer_asset_uuid, offer_energy_type,
                         offer_max_energy, offer_time_slot);
      var check := CheckMatch(bid, offer);
      if check.Err? then Dispatched(check, s)
      else
        var trade_id := bid.uuid;
        var written := Insert(s, trade_id, true);
        Dispatched(Ok, DepositEvent(written, MatchVerified(bid_uuid, offer_uuid)))
  }

  /** An id that no call has inserted reads as not verified. */
  lemma AbsentKeyReadsFalse(s: State, id: u32)
    requires id !in s.validTrades
    ensures !Verified(s, id)
  {
  }

  /**
   Repeating a successful call leaves the registry as the first call left it,
   and the log grows by one more `MatchVerified` with the same ids.
   */
  lemma RepeatIsIdempotent(
    s: State, origin: Origin,
    bid_uuid: u32, bid_market_uuid: Bytes, bid_asset_uuid: Bytes, bid_max_energy: u32, bid_time_slot: Bytes,
    offer_uuid: u32, offer_market_uuid: Bytes, offer_asset_uuid: Bytes, offer_energy_type: Bytes,
    offer_max_energy: u32, offer_time_slot: Bytes)
    requires VerifyMatch(s, origin, bid_uuid, bid_market_uuid, bid_asset_uuid, bid_max_energy, bid_time_slot,
                         offer_uuid, offer_market_uuid, offer_asset_uuid, offer_energy_type,
                         offer_max_energy, offer_time_slot).result == Ok
    ensures
      var once := VerifyMatch(s, origin, bid_uuid, bid_market_uuid, bid_asset_uuid, bid_max_energy, bid_time_slot,
                              offer_uuid, offer_market_uuid, offer_asset_uuid, offer_energy_type,
                              offer_max_energy, offer_time_slot).post;
      var twice := VerifyMatch(once, origin, bid_uuid, bid_market_uuid, bid_asset_uuid, bid_max_energy,
                               bid_time_slot, offer_uuid, offer_market_uuid, offer_asset_uuid,
                               offer_energy_type, offer_max_energy, offer_time_slot);
      && twice.result == Ok
      && twice.post.validTrades == once.validTrades
      && twice.post.events == once.events + [MatchVerified(bid_uuid, offer_uuid)]
  {
  }

  /**
   The outcome does not depend on the bid's and the offer's energy amounts,
   time slots or the offer's energy type: none of them is compared.
   */
  lemma UncomparedFieldsIrrelevant(
    s: State, origin: Origin,
    bid_uuid: u32, bid_market_uuid: Bytes, bid_asset_uuid: Bytes,
    offer_uuid: u32, offer_market_uuid: Bytes, offer_asset_uuid: Bytes,
    bid_max_energy: u32, bid_time_slot: Bytes,
    offer_energy_type: Bytes, offer_max_energy: u32, offer_time_slot: Bytes,
    bid_max_energy': u32, bid_time_slot': Bytes,
    offer_energy_type': Bytes, offer_max_energy': u32, offer_time_slot': Bytes)
    ensures
      VerifyMatch(s, origin, bid_uuid, bid_market_uuid, bid_asset_uuid, bid_max_energy, bid_time_slot,
                  offer_uuid, offer_market_uuid, offer_asset_uuid, offer_energy_type,
                  offer_max_energy, offer_time_slot)
      == VerifyMatch(s, origin, bid_uuid, bid_market_uuid, bid_asset_uuid, bid_max_energy', bid_time_slot',
                     offer_uuid, offer_market_uuid, offer_asset_uuid, offer_energy_type',
                     offer_max_energy', offer_time_slot')
  {
  }

  /**
   The matching scenario: bid and offer for trade 1 in market "M" with asset
   "A" are verified, trade 1 reads true, and one `MatchVerified(1, 1)` is logged.
   */
  lemma ScenarioMatch()
    ensures
      var r := VerifyMatch(Genesis, Signed(0), 1, [77], [65], 10, [84, 49],
                           1, [77], [65], [115, 111, 108, 97, 114], 10, [84, 49]);
      && r.result == Ok
      && Verified(r.post, 1)
      && r.post.events == [MatchVerified(1, 1)]
  {
  }

  /**
   The same bid against an offer for trade 2 fails on the trade id, and
   neither trade 1 nor trade 2 reads as verified.
   */
  lemma ScenarioIdMismatch()
    ensures
      var r := VerifyMatch(Genesis, Signed(0), 1, [77], [65], 10, [84, 49],
                           2, [77], [65], [115, 111, 108, 97, 114], 10, [84, 49]);
      && r.result == Err(TradeIdMismatch)
      && !Verified(r.post, 1)
      && !Verified(r.post, 2)
      && r.post.events == []
  {
  }
}
