/**
 * The exchange-rate cache: one mutable record `{rates, lastUpdated}` that is
 * either read (a non-zero cached rate) or overwritten by a fetch from the rate
 * provider. The provider's answer to a fetch is a parameter: `None` when the
 * request or the JSON decoding threw, otherwise the decoded body. A fetch is
 * made for the pair asked about; what comes back is whatever the provider says.
 * 0 is the "no rate" answer. Every rate key contains '-' and no built-in
 * object property name does, so looking a key up in the table is an exact map
 * lookup.
 */
module ExchangeRates {
  import opened Wrappers

  /** The fields of the provider's JSON body that the service reads. */
  datatype ExchangeRateResponse = ExchangeRateResponse(sellCurrency: string, buyCurrency: string, retailRate: real)

  /** The cache: rates keyed by "SELL-BUY", and the instant (ms) of the last successful fetch. */
  datatype ExchangeRateCache = ExchangeRateCache(rates: map<string, real>, lastUpdated: int)

  /** The cache a fresh service starts with: no rates, updated at the epoch. */
  const INITIAL_CACHE: ExchangeRateCache := ExchangeRateCache(map[], 0)

  /** One hour in ms. Declared by the service and never consulted. */
  const CACHE_TTL: int := 1000 * 60 * 60

  /** The key of a currency pair, as both the service and the quote handler build it. */
  function RateKey(sellCurrency: string, buyCurrency: string): (key: string)
    ensures |key| == |sellCurrency| + 1 + |buyCurrency|
    ensures key[..|sellCurrency|] == sellCurrency && key[|sellCurrency|] == '-'
    ensures key[|sellCurrency| + 1..] == buyCurrency
  {
    sellCurrency + "-" + buyCurrency
  }

  /** `rates[key] || 0`: the cached rate, or 0 when it is absent or itself 0. */
  function CachedRate(rates: map<string, real>, key: string): (rate: real)
    ensures rate != 0.0 <==> key in rates && rates[key] != 0.0
    ensures rate != 0.0 ==> rate == rates[key]
  {
    if key in rates && rates[key] != 0.0 then rates[key] else 0.0
  }

  /** `formatRates`: the rate table a provider answer turns into. */
  function FormatRates(data: ExchangeRateResponse): (rates: map<string, real>)
    ensures |rates| <= 1
    ensures rates.Keys <= {RateKey(data.sellCurrency, data.buyCurrency)}
    ensures rates == map[] <==> data.sellCurrency == data.buyCurrency
    ensures forall key :: key in rates ==> rates[key] == data.retailRate
  {
    if data.sellCurrency != data.buyCurrency then
      map[RateKey(data.sellCurrency, data.buyCurrency) := data.retailRate]
    else
      map[]
  }

  /** `fetchRates`: the cache after a fetch whose outcome is `response`, at time `now`. */
  function AfterFetch(cache: ExchangeRateCache, response: Option<ExchangeRateResponse>, now: int)
    : ExchangeRateCache
  {
    match response
    case None => cache
    case Some(data) => ExchangeRateCache(FormatRates(data), now)
  }

  /** `getRates` answers from the cache exactly when this holds. */
  predicate IsHit(cache: ExchangeRateCache, key: string)
  {
    CachedRate(cache.rates, key) != 0.0
  }

  /** The cache after `getRates` for `key`: untouched on a hit, refreshed on a miss. */
  function AfterGetRates(cache: ExchangeRateCache, key: string, response: Option<ExchangeRateResponse>, now: int)
    : ExchangeRateCache
  {
    if IsHit(cache, key) then cache else AfterFetch(cache, response, now)
  }

  /** What `getRates` returns for `key`. */
  function GetRatesResult(cache: ExchangeRateCache, key: string, response: Option<ExchangeRateResponse>, now: int)
    : real
  {
    CachedRate(AfterGetRates(cache, key, response, now).rates, key)
  }

  // ---------------------------------------------------------------------------
  // The service object

  class ExchangeRateService {
    var cache: ExchangeRateCache

    constructor ()
      ensures cache == INITIAL_CACHE
    {
      cache := INITIAL_CACHE;
    }

    /**
     * `getRates(sell, buy)`: serve a non-zero cached rate, otherwise fetch and
     * answer from the refreshed cache, 0 when it holds no rate for the pair.
     */
    method GetRates(sellCurrency: string, buyCurrency: string, response: Option<ExchangeRateResponse>, now: int)
      returns (rate: real)
      modifies this
      ensures cache == AfterGetRates(old(cache), RateKey(sellCurrency, buyCurrency), response, now)
      ensures rate == GetRatesResult(old(cache), RateKey(sellCurrency, buyCurrency), response, now)
      ensures rate != 0.0 ==> IsHit(cache, RateKey(sellCurrency, buyCurrency))
    {
      var key := RateKey(sellCurrency, buyCurrency);
      if CachedRate(cache.rates, key) == 0.0 {
        FetchRates(sellCurrency, buyCurrency, response, now);
      }
      rate := CachedRate(cache.rates, key);
    }

    /**
     * `fetchRates(sell, buy)`: on success the whole rate table is replaced by the
     * formatted answer and `lastUpdated` becomes `now`; a failure is swallowed
     * and leaves the cache as it was.
     */
    method FetchRates(sellCurrency: string, buyCurrency: string, response: Option<ExchangeRateResponse>, now: int)
      modifies this
      ensures cache == AfterFetch(old(cache), response, now)
      ensures response.None? ==> cache == old(cache)
      ensures response.Some? ==> cache.rates == FormatRates(response.value) && cache.lastUpdated == now
    {
      match response {
        case None =>
        case Some(data) =>
          cache := cache.(rates := FormatRates(data));
          cache := cache.(lastUpdated := now);
      }
    }
  }

  // ---------------------------------------------------------------------------
  // Properties of the cache

  /** A hit returns the cached rate and changes nothing, whatever the provider would say and however old the entry. */
  lemma CacheHit(cache: ExchangeRateCache, key: string, response: Option<ExchangeRateResponse>, now: int)
    requires key in cache.rates && cache.rates[key] != 0.0
    ensures AfterGetRates(cache, key, response, now) == cache
    ensures GetRatesResult(cache, key, response, now) == cache.rates[key]
  {
  }

  /** On a miss, a successful fetch evicts every other pair and stamps the cache with `now`. */
  lemma MissWithAnswerReplacesTable(cache: ExchangeRateCache, key: string, data: ExchangeRateResponse, now: int)
    requires !IsHit(cache, key)
    ensures var after := AfterGetRates(cache, key, Some(data), now);
      && after.lastUpdated == now
      && |after.rates| <= 1
      && (forall k :: k in after.rates ==> k == RateKey(data.sellCurrency, data.buyCurrency))
      && (forall k :: k in cache.rates && k != RateKey(data.sellCurrency, data.buyCurrency) ==> k !in after.rates)
  {
  }

  /** A failed fetch leaves the rates and `lastUpdated` alone, and the caller gets 0. */
  lemma MissWithFailureKeepsCache(cache: ExchangeRateCache, key: string, now: int)
    requires !IsHit(cache, key)
    ensures AfterGetRates(cache, key, None, now) == cache
    ensures GetRatesResult(cache, key, None, now) == 0.0
  {
  }

  /**
   * What a miss returns: the provider's retail rate when it answered a pair with
   * this very key (and distinct currencies), 0 otherwise.
   */
  lemma MissResult(cache: ExchangeRateCache, key: string, response: Option<ExchangeRateResponse>, now: int)
    requires !IsHit(cache, key)
    ensures GetRatesResult(cache, key, response, now) ==
      if response.Some? && response.value.sellCurrency != response.value.buyCurrency
         && RateKey(response.value.sellCurrency, response.value.buyCurrency) == key
      then response.value.retailRate
      else 0.0
  {
    if response.Some? {
      var data := response.value;
      if data.sellCurrency != data.buyCurrency && RateKey(data.sellCurrency, data.buyCurrency) == key {
        assert FormatRates(data) == map[key := data.retailRate];
      } else {
        assert key !in FormatRates(data);
      }
    }
  }

  /** Whatever happens, the answer is either 0 or the rate the cache then holds for the key. */
  lemma ResultIsCachedOrZero(cache: ExchangeRateCache, key: string, response: Option<ExchangeRateResponse>, now: int)
    ensures var after := AfterGetRates(cache, key, response, now);
      var rate := GetRatesResult(cache, key, response, now);
      (rate == 0.0 <==> key !in after.rates || after.rates[key] == 0.0)
      && (rate != 0.0 ==> rate == after.rates[key])
  {
  }

  /** `lastUpdated` moves only when a miss was followed by a successful fetch. */
  lemma LastUpdatedOnlyOnFetch(cache: ExchangeRateCache, key: string, response: Option<ExchangeRateResponse>, now: int)
    ensures var after := AfterGetRates(cache, key, response, now);
      after.lastUpdated != cache.lastUpdated ==> !IsHit(cache, key) && response.Some? && after.lastUpdated == now
  {
  }

  /** The TTL plays no part: two caches that differ only in `lastUpdated` answer alike. */
  lemma AgeIsIgnored(rates: map<string, real>, t1: int, t2: int, key: string,
                     response: Option<ExchangeRateResponse>, now: int)
    ensures GetRatesResult(ExchangeRateCache(rates, t1), key, response, now)
         == GetRatesResult(ExchangeRateCache(rates, t2), key, response, now)
  {
  }

  /**
   * Two calls in a row for the same pair: when the first answered with a non-zero
   * rate, the second is a hit with the same answer and no fetch; when the first
   * answered 0, the second fetches again.
   */
  lemma {:induction false} RepeatedCalls(cache: ExchangeRateCache, key: string,
                       first: Option<ExchangeRateResponse>, t1: int,
                       second: Option<ExchangeRateResponse>, t2: int)
    ensures var c1 := AfterGetRates(cache, key, first, t1);
      var r1 := GetRatesResult(cache, key, first, t1);
      && (r1 != 0.0 ==> IsHit(c1, key) && AfterGetRates(c1, key, second, t2) == c1
                        && GetRatesResult(c1, key, second, t2) == r1)
      && (r1 == 0.0 ==> !IsHit(c1, key))
  {
  }

  /** A table of at most one pair keeps that shape; as the service starts empty, it never holds two pairs. */
  lemma AtMostOnePairAfterFetch(cache: ExchangeRateCache, key: string, response: Option<ExchangeRateResponse>, now: int)
    requires |cache.rates| <= 1
    ensures |AfterGetRates(cache, key, response, now).rates| <= 1
  {
  }
}
