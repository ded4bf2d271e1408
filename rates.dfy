/** Exchange rates with a transient cache, and the currency data handed to the
    storefront (CPB_Currency / CPBWOO_Currency). Rate values are opaque. */
module ExchangeRates {
  import opened Php
  import opened WordPress
  import opened Plugins
  import Currency

  /** An HTTP response as wp_remote_get returns it; `body` is the body after
      json_decode($body, true). */
  datatype HttpResponse = WpError | Response(status: int, body: Value)

  /** The transient that caches the rates, per plugin. */
  function RatesTransient(p: Plugin): string
  {
    match p
    case Cpb => "cpb_exchange_rates"
    case Cpbwoo => "cpbwoo_exchange_rates"
  }

  /** The hard-coded table used when both APIs fail. */
  const FallbackTable: Value := Arr([
    Entry(StrKey("USD"), Int(1)),
    Entry(StrKey("EUR"), Float(0.85)),
    Entry(StrKey("GBP"), Float(0.73)),
    Entry(StrKey("CAD"), Float(1.25)),
    Entry(StrKey("AUD"), Float(1.35)),
    Entry(StrKey("JPY"), Int(110)),
    Entry(StrKey("CHF"), Float(0.92)),
    Entry(StrKey("CNY"), Float(6.45))
  ])

  lemma FallbackTableContents()
    ensures Index(FallbackTable, StrKey("USD")) == Int(1)
    ensures Truthy(FallbackTable)
    ensures |FallbackTable.entries| == 8
  {
  }

  /** What fetch_rates_from_cpb_backend accepts: a 200 response whose decoded
      body is truthy, has a truthy `success` and a set `data.rates`. */
  function BackendRates(r: HttpResponse): (rates: Option<Value>)
    ensures rates.Some? ==> r.Response? && r.status == 200
    ensures rates.Some? ==> Truthy(Index(r.body, StrKey("success")))
    ensures rates.Some? ==> rates.value != Null && rates.value == Index(Index(r.body, StrKey("data")), StrKey("rates"))
    ensures (r.Response? && r.status == 200 && Truthy(r.body) && Truthy(Index(r.body, StrKey("success")))
             && IsSet(Index(r.body, StrKey("data")), StrKey("rates"))) ==> rates.Some?
  {
    if r.WpError? || r.status != 200 then None
    else if Empty(r.body) || !IsSet(r.body, StrKey("success")) || !Truthy(Index(r.body, StrKey("success"))) then None
    else if IsSet(Index(r.body, StrKey("data")), StrKey("rates")) then Some(Index(Index(r.body, StrKey("data")), StrKey("rates")))
    else None
  }

  /** What fetch_rates_from_fallback_api accepts: any non-error response whose
      decoded body has a set `rates` (the status code is not checked). */
  function FallbackApiRates(r: HttpResponse): (rates: Option<Value>)
    ensures rates.Some? <==> r.Response? && IsSet(r.body, StrKey("rates"))
    ensures rates.Some? ==> rates.value == Index(r.body, StrKey("rates"))
  {
    if r.WpError? then None
    else if IsSet(r.body, StrKey("rates")) then Some(Index(r.body, StrKey("rates")))
    else None
  }

  /** An abstract store of WordPress transients (expiry is the platform's business). */
  class TransientStore {
    var values: map<string, Value>

    constructor (initial: map<string, Value>)
      ensures values == initial
    {
      values := initial;
    }

    /** set_transient. */
    method Set(key: string, v: Value)
      modifies this
      ensures values == old(values)[key := v]
    {
      values := values[key := v];
    }
  }

  /** get_transient: false when absent. */
  function GetTransient(values: map<string, Value>, key: string): Value
  {
    if key in values then values[key] else Bool(false)
  }

  /** The store after writing `cached` (if anything was written). */
  function WithCached(values: map<string, Value>, key: string, cached: Option<Value>): map<string, Value>
  {
    match cached
    case None => values
    case Some(v) => values[key := v]
  }

  /** What fetch_exchange_rates_from_api returns: the backend's rates if they
      are truthy, else the fallback API's if they are truthy, else false. */
  function ApiRates(backend: HttpResponse, fallback: HttpResponse): (r: Value)
    ensures r == Bool(false) || Truthy(r)
    ensures Truthy(r) ==> Some(r) == BackendRates(backend) || Some(r) == FallbackApiRates(fallback)
    ensures BackendRates(backend).Some? && Truthy(BackendRates(backend).value) ==> r == BackendRates(backend).value
    ensures (!(BackendRates(backend).Some? && Truthy(BackendRates(backend).value))
             && FallbackApiRates(fallback).Some? && Truthy(FallbackApiRates(fallback).value))
      ==> r == FallbackApiRates(fallback).value
  {
    var b := BackendRates(backend);
    var f := FallbackApiRates(fallback);
    if b.Some? && Truthy(b.value) then b.value
    else if f.Some? && Truthy(f.value) then f.value
    else Bool(false)
  }

  /** The last value a cache miss writes to the transient: each fetch caches
      whatever rates it accepts, even a falsy value that is then treated as a
      failure; the fallback API is not asked when the backend gave truthy rates. */
  function MissCached(backend: HttpResponse, fallback: HttpResponse): (c: Option<Value>)
    ensures c.None? <==> BackendRates(backend).None? && FallbackApiRates(fallback).None?
    ensures c.Some? ==> c == BackendRates(backend) || c == FallbackApiRates(fallback)
  {
    var b := BackendRates(backend);
    var f := FallbackApiRates(fallback);
    if b.Some? && Truthy(b.value) then b
    else if f.Some? then f
    else b
  }

  /** The rates get_exchange_rates returns on a cache miss: never false. */
  function MissRates(backend: HttpResponse, fallback: HttpResponse): (r: Value)
    ensures Truthy(r)
    ensures r == FallbackTable || r == ApiRates(backend, fallback)
    ensures ApiRates(backend, fallback) == Bool(false) ==> r == FallbackTable
    ensures Truthy(ApiRates(backend, fallback)) ==> r == ApiRates(backend, fallback)
  {
    var api := ApiRates(backend, fallback);
    if Truthy(api) then api else FallbackTable
  }

  /** fetch_rates_from_cpb_backend: caches and returns the accepted rates. */
  method FetchRatesFromBackend(p: Plugin, store: TransientStore, response: HttpResponse) returns (rates: Value)
    modifies store
    ensures rates == (match BackendRates(response) case Some(v) => v case None => Bool(false))
    ensures store.values == WithCached(old(store.values), RatesTransient(p), BackendRates(response))
  {
    var accepted := BackendRates(response);
    if accepted.Some? {
      store.Set(RatesTransient(p), accepted.value);
      rates := accepted.value;
    } else {
      rates := Bool(false);
    }
  }

  /** fetch_rates_from_fallback_api: caches and returns the accepted rates. */
  method FetchRatesFromFallbackApi(p: Plugin, store: TransientStore, response: HttpResponse) returns (rates: Value)
    modifies store
    ensures rates == (match FallbackApiRates(response) case Some(v) => v case None => Bool(false))
    ensures store.values == WithCached(old(store.values), RatesTransient(p), FallbackApiRates(response))
  {
    var accepted := FallbackApiRates(response);
    if accepted.Some? {
      store.Set(RatesTransient(p), accepted.value);
      rates := accepted.value;
    } else {
      rates := Bool(false);
    }
  }

  /** fetch_exchange_rates_from_api: the backend first, then the fallback API;
      false when neither gave truthy rates. */
  method FetchExchangeRatesFromApi(p: Plugin, store: TransientStore, backend: HttpResponse, fallback: HttpResponse)
    returns (rates: Value)
    modifies store
    ensures rates == ApiRates(backend, fallback)
    ensures store.values == WithCached(old(store.values), RatesTransient(p), MissCached(backend, fallback))
  {
    rates := FetchRatesFromBackend(p, store, backend);
    if Truthy(rates) {
      return;
    }
    rates := FetchRatesFromFallbackApi(p, store, fallback);
    if Truthy(rates) {
      return;
    }
    rates := Bool(false);
  }

  /** get_exchange_rates: a cached value other than false is returned untouched
      and nothing is fetched or written; otherwise the APIs are tried and the
      hard-coded table (never cached) is the last resort. */
  method GetExchangeRates(p: Plugin, store: TransientStore, backend: HttpResponse, fallback: HttpResponse)
    returns (rates: Value)
    modifies store
    ensures GetTransient(old(store.values), RatesTransient(p)) != Bool(false) ==>
              rates == GetTransient(old(store.values), RatesTransient(p)) && store.values == old(store.values)
    ensures GetTransient(old(store.values), RatesTransient(p)) == Bool(false) ==>
              rates == MissRates(backend, fallback)
              && store.values == WithCached(old(store.values), RatesTransient(p), MissCached(backend, fallback))
    ensures rates != Bool(false)
  {
    rates := GetTransient(store.values, RatesTransient(p));
    if rates == Bool(false) {
      rates := FetchExchangeRatesFromApi(p, store, backend, fallback);
      if !Truthy(rates) {
        rates := FallbackTable;
      }
    }
  }

  /** The hard-coded table is never written to the cache: when both APIs fail
      the store is left as it was. */
  lemma {:induction false} TableNeverCached(backend: HttpResponse, fallback: HttpResponse)
    requires BackendRates(backend).None? && FallbackApiRates(fallback).None?
    ensures MissRates(backend, fallback) == FallbackTable && MissCached(backend, fallback).None?
  {
  }

  /** A backend that reports success with an empty `rates` array gets that empty
      array cached; this request falls through to the fallback API (or the
      table), and until the transient expires later requests are served the
      empty array. */
  lemma {:induction false} EmptyBackendRatesAreCached(backend: HttpResponse, fallback: HttpResponse)
    requires BackendRates(backend) == Some(Arr([]))
    requires FallbackApiRates(fallback).None?
    ensures MissRates(backend, fallback) == FallbackTable && MissCached(backend, fallback) == Some(Arr([]))
  {
  }

  /* ---------------------------------------------------------------------
     Front-end data
     --------------------------------------------------------------------- */

  /** The rates sent to the storefront: the base currency's rate and, if it
      differs from the base, the current currency's rate, copied unchanged. */
  function FilteredRates(all: Value, current: string): (r: seq<Entry>)
    ensures forall i :: 0 <= i < |r| ==> r[i].key == StrKey(Currency.BaseCurrency) || r[i].key == Norm(StrKey(current))
    ensures IsSet(Arr(r), StrKey(Currency.BaseCurrency)) <==> IsSet(all, StrKey(Currency.BaseCurrency))
    ensures IsSet(all, StrKey(Currency.BaseCurrency)) ==>
              Index(Arr(r), StrKey(Currency.BaseCurrency)) == Index(all, StrKey(Currency.BaseCurrency))
    ensures current != Currency.BaseCurrency ==> (IsSet(Arr(r), StrKey(current)) <==> IsSet(all, StrKey(current)))
    ensures current != Currency.BaseCurrency && IsSet(all, StrKey(current)) ==>
              Index(Arr(r), StrKey(current)) == Index(all, StrKey(current))
    ensures |r| <= 2
  {
    var base := StrKey(Currency.BaseCurrency);
    var cur := StrKey(current);
    NormNonNumeric(Currency.BaseCurrency);
    var withBase := if IsSet(all, base) then Put([], base, Index(all, base)) else [];
    assert forall k :: Get(withBase, k) == if IsSet(all, base) && Norm(k) == base then Some(Index(all, base)) else None by {
      forall k ensures Get(withBase, k) == if IsSet(all, base) && Norm(k) == base then Some(Index(all, base)) else None {
        if IsSet(all, base) { GetPut([], base, Index(all, base), k); }
      }
    }
    if current != Currency.BaseCurrency && IsSet(all, cur) then
      var r := Put(withBase, cur, Index(all, cur));
      GetPut(withBase, cur, Index(all, cur), base);
      GetPut(withBase, cur, Index(all, cur), cur);
      assert Norm(cur) != base;
      assert r == withBase + [Entry(Norm(cur), Index(all, cur))] by {
        if withBase != [] { assert withBase[1..] == []; }
      }
      r
    else
      withBase
  }

  /** The array get_currency_data_for_frontend returns, with each plugin's key names. */
  function FrontendData(p: Plugin, current: string, filtered: seq<Entry>): (r: Value)
    ensures r.Arr? && |r.entries| == 3
    ensures Index(r, StrKey(if p == Cpb then "base_currency" else "cpbwoo_base_currency")) == Str(Currency.BaseCurrency)
    ensures Index(r, StrKey(if p == Cpb then "currency" else "cpbwoo_currency")) == Str(current)
    ensures Index(r, StrKey(if p == Cpb then "exchange_rates" else "cpbwoo_exchange_rates")) == Arr(filtered)
  {
    var (kc, kr, kb) := match p
      case Cpb => ("currency", "exchange_rates", "base_currency")
      case Cpbwoo => ("cpbwoo_currency", "cpbwoo_exchange_rates", "cpbwoo_base_currency");
    var a := [Entry(StrKey(kc), Str(current)), Entry(StrKey(kr), Arr(filtered)), Entry(StrKey(kb), Str(Currency.BaseCurrency))];
    NormNonNumeric(kc);
    NormNonNumeric(kr);
    NormNonNumeric(kb);
    GetDistinct(a, 0);
    GetDistinct(a, 1);
    GetDistinct(a, 2);
    Arr(a)
  }

  /** get_currency_data_for_frontend: rates first, then the current currency.
      None when currency detection threw (possible only in CPBWOO_Currency);
      the rates lookup has already happened by then. */
  method CurrencyDataForFrontend(p: Plugin, wp: Wp, store: TransientStore, backend: HttpResponse, fallback: HttpResponse,
                                 src: Currency.Sources)
    returns (data: Option<Value>, all: Value)
    modifies store
    ensures GetTransient(old(store.values), RatesTransient(p)) != Bool(false) ==>
              all == GetTransient(old(store.values), RatesTransient(p)) && store.values == old(store.values)
    ensures GetTransient(old(store.values), RatesTransient(p)) == Bool(false) ==>
              all == MissRates(backend, fallback)
              && store.values == WithCached(old(store.values), RatesTransient(p), MissCached(backend, fallback))
    ensures data.None? <==> Currency.DetectCurrency(p, wp, src).None?
    ensures data.Some? ==>
              var current := Currency.DetectCurrency(p, wp, src).value;
              data.value == FrontendData(p, current, FilteredRates(all, current))
  {
    all := GetExchangeRates(p, store, backend, fallback);
    var current := Currency.DetectCurrency(p, wp, src);
    if current.None? {
      data := None;
    } else {
      data := Some(FrontendData(p, current.value, FilteredRates(all, current.value)));
    }
  }
}
