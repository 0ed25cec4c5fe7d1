/**
 * BRL to satoshi conversion and the BTC/BRL price cache
 * (src/services/conversion.service.ts, TTL from src/services/cache.service.ts).
 * Prices and amounts are exact reals here, not IEEE doubles.
 */
module Conversion {
  import opened Wrappers

  /** 1 BTC = 100,000,000 sats. */
  const SatsPerBtc: int := 100_000_000

  /** The cache's standard time-to-live, 300 s, in the milliseconds of `Date.now()`. */
  const PriceTtlMillis: int := 300 * 1000

  /** `convertBRLToSats`: floor(brl / price * 1e8). The result never exceeds the exact value and is less than one sat below it. */
  function BrlToSats(brlAmount: real, btcPrice: real): (sats: int)
    requires btcPrice != 0.0
    ensures sats as real <= brlAmount / btcPrice * SatsPerBtc as real < sats as real + 1.0
  {
    (brlAmount / btcPrice * SatsPerBtc as real).Floor
  }

  /** The floor bounds determine the result: no other integer satisfies them. */
  lemma BrlToSatsIsTheFloor(brlAmount: real, btcPrice: real, n: int)
    requires btcPrice != 0.0
    requires n as real <= brlAmount / btcPrice * SatsPerBtc as real < n as real + 1.0
    ensures n == BrlToSats(brlAmount, btcPrice)
  {
  }

  lemma BrlToSatsExample()
    ensures BrlToSats(100.0, 500000.0) == 20000
  {
  }

  lemma BrlToSatsOfZero(btcPrice: real)
    requires btcPrice != 0.0
    ensures BrlToSats(0.0, btcPrice) == 0
  {
  }

  /** For a fixed positive price, more reais never buy fewer sats. */
  lemma BrlToSatsMonotoneInAmount(b1: real, b2: real, btcPrice: real)
    requires btcPrice > 0.0 && b1 <= b2
    ensures BrlToSats(b1, btcPrice) <= BrlToSats(b2, btcPrice)
  {
    DivideMonotone(b1, b2, btcPrice);
  }

  /** For a fixed non-negative amount, a higher price never gives more sats. */
  lemma BrlToSatsAntitoneInPrice(brlAmount: real, p1: real, p2: real)
    requires brlAmount >= 0.0 && 0.0 < p1 <= p2
    ensures BrlToSats(brlAmount, p2) <= BrlToSats(brlAmount, p1)
  {
    DivideAntitone(brlAmount, p1, p2);
  }

  lemma DivideMonotone(b1: real, b2: real, p: real)
    requires p > 0.0 && b1 <= b2
    ensures b1 / p * SatsPerBtc as real <= b2 / p * SatsPerBtc as real
  {
    assert b2 / p - b1 / p == (b2 - b1) / p;
  }

  lemma DivideAntitone(b: real, p1: real, p2: real)
    requires b >= 0.0 && 0.0 < p1 <= p2
    ensures b / p2 * SatsPerBtc as real <= b / p1 * SatsPerBtc as real
  {
    assert b / p1 - b / p2 == b * (p2 - p1) / (p1 * p2);
    assert b * (p2 - p1) >= 0.0;
  }

  /** What `fetchBTCPriceInBRL` reads of the CoinGecko reply: `bitcoin?.brl`, or the request failed. */
  datatype PriceReply = Reply(brl: Option<real>) | RequestFailed

  /** The two ways `fetchBTCPriceInBRL` throws. */
  datatype PriceError =
    | PriceNotFound   // Error("BTC price not found in response.")
    | FetchFailed     // the axios error, rethrown

  datatype PriceData = PriceData(price: real, lastUpdated: int)

  /** `fetchBTCPriceInBRL` with the clock `now` injected: a missing or falsy (zero) price is rejected. */
  function FetchBtcPriceInBrl(reply: PriceReply, now: int): (r: Result<PriceData, PriceError>)
    ensures r.Ok? <==> reply.Reply? && reply.brl.Some? && reply.brl.value != 0.0
    ensures r.Ok? ==> r.value.price == reply.brl.value && r.value.price != 0.0 && r.value.lastUpdated == now
    ensures reply.RequestFailed? ==> r == Err(FetchFailed)
    ensures reply.Reply? && (reply.brl.None? || reply.brl.value == 0.0) ==> r == Err(PriceNotFound)
  {
    match reply
    case RequestFailed => Err(FetchFailed)
    case Reply(brl) =>
      if brl.None? || brl.value == 0.0 then Err(PriceNotFound)
      else Ok(PriceData(brl.value, now))
  }

  /** A cached value with the instant (ms) after which node-cache no longer returns it. */
  datatype CacheEntry = CacheEntry(data: PriceData, expiresAt: int)

  /** The "btcPriceData" slot of the process-wide node-cache. */
  class PriceCache {
    var entry: Option<CacheEntry>

    /** Only a successful fetch is ever stored, so the cached price is never zero. */
    ghost predicate Valid()
      reads this
    {
      entry.Some? ==> entry.value.data.price != 0.0
    }

    constructor ()
      ensures Valid() && entry == None
    {
      entry := None;
    }

    /** `cache.get("btcPriceData")`: the stored value while its TTL has not run out, else undefined. */
    function Get(now: int): (r: Option<PriceData>)
      reads this
      ensures r.Some? <==> entry.Some? && now <= entry.value.expiresAt
      ensures r.Some? ==> r.value == entry.value.data
    {
      if entry.Some? && now <= entry.value.expiresAt then Some(entry.value.data) else None
    }

    /**
     * `getBTCPriceData`: a hit returns the cached value and ignores `reply` (no fetch);
     * a miss fetches, stores a success for 300 s and returns it; a failed fetch leaves the cache alone.
     */
    method GetBtcPriceData(now: int, reply: PriceReply) returns (r: Result<PriceData, PriceError>)
      requires Valid()
      modifies this
      ensures Valid()
      ensures old(Get(now)).Some? ==> r == Ok(old(Get(now)).value) && entry == old(entry)
      ensures old(Get(now)).None? ==> r == FetchBtcPriceInBrl(reply, now)
      ensures old(Get(now)).None? && r.Ok? ==> entry == Some(CacheEntry(r.value, now + PriceTtlMillis))
      ensures r.Err? ==> entry == old(entry)
      ensures r.Ok? ==> r.value.price != 0.0
    {
      var cached := Get(now);
      if cached.Some? {
        return Ok(cached.value);
      }
      r := FetchBtcPriceInBrl(reply, now);
      if r.Ok? {
        entry := Some(CacheEntry(r.value, now + PriceTtlMillis));
      }
    }
  }
}
