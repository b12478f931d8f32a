/** The unauthenticated client for Binance USD-M Futures: request URLs, the
    server time and a symbol's trading rules picked out of exchangeInfo. */
module BinanceUsdmPublic {
  import opened Wrappers
  import opened Strings
  import opened Json
  import opened Params
  import opened Http

  const ProductionBaseUrl: string := "https://fapi.binance.com"
  const DefaultTimeoutSec: int := 10

  const PingPath: string := "/fapi/v1/ping"
  const TimePath: string := "/fapi/v1/time"
  const ExchangeInfoPath: string := "/fapi/v1/exchangeInfo"

  const NotFoundPrefix: string := "Symbol not found in exchangeInfo: "
  const MissingFiltersPrefix: string := "Missing PRICE_FILTER or LOT_SIZE for symbol: "

  /** A symbol's trading rules; `F` is whatever `float(...)` produces. */
  datatype SymbolMeta<F> = SymbolMeta(symbol: string, tickSize: F, stepSize: F, minQty: F)

  /** `int(v)` on a decoded JSON value. */
  function IntOf(v: Json): Result<int, Error>
  {
    match v
    case Integer(i) => Success(i)
    case Boolean(b) => Success(if b then 1 else 0)
    case Str(s) =>
      (match ParseInt(s)
       case Some(n) => Success(n)
       case None => Failure(ValueError("invalid literal for int() with base 10: '" + s + "'")))
    case _ => Failure(TypeError("int() argument must be a string, a bytes-like object or a real number"))
  }

  /** `int(data["serverTime"])`. */
  function ServerTime(data: Json): Result<int, Error>
  {
    var v :- Subscript(data, "serverTime");
    IntOf(v)
  }

  /** `f["filterType"]`, which must be usable as a dict key. */
  function FilterType(f: Json): Result<Json, Error>
  {
    var t :- Subscript(f, "filterType");
    if Hashable(t) then Success(t) else Failure(TypeError("unhashable type"))
  }

  /** `{f["filterType"]: f for f in fs}`: built left to right, so a later
      entry with the same type replaces an earlier one, and the first entry
      that fails stops the comprehension. */
  function FilterMap(fs: seq<Json>): Result<map<Json, Json>, Error>
  {
    if fs == [] then Success(map[])
    else
      var m :- FilterMap(fs[..|fs| - 1]);
      var t :- FilterType(fs[|fs| - 1]);
      Success(m[t := fs[|fs| - 1]])
  }

  /** The filter map of `symbols[0]`, after the check that `symbols` is truthy. */
  function SymbolFilters(data: Json, symbol: string): Result<map<Json, Json>, Error>
  {
    var symbols :- DictGet(data, "symbols", List([]));
    if !Truthy(symbols) then Failure(ValueError(NotFoundPrefix + symbol))
    else
      var s0 :- First(symbols);
      var filters :- DictGet(s0, "filters", List([]));
      var fs :- Iterate(filters);
      FilterMap(fs)
  }

  /** `float(v)`, with the conversion left abstract. */
  function ToFloat<F>(v: Json, toFloat: Json -> Option<F>): Result<F, Error>
  {
    match toFloat(v)
    case Some(x) => Success(x)
    case None => Failure(FloatError(v))
  }

  function MapGet(m: map<Json, Json>, k: Json): Option<Json>
  {
    if k in m then Some(m[k]) else None
  }

  predicate TruthyOption(o: Option<Json>)
  {
    o.Some? && Truthy(o.value)
  }

  /** `exchange_info_symbol(symbol)` on the decoded response `data`. */
  function ExchangeInfoSymbolOf<F>(data: Json, symbol: string, toFloat: Json -> Option<F>)
    : Result<SymbolMeta<F>, Error>
  {
    var filters :- SymbolFilters(data, symbol);
    var priceFilter := MapGet(filters, Str("PRICE_FILTER"));
    var lotSize := MapGet(filters, Str("LOT_SIZE"));
    if !TruthyOption(priceFilter) || !TruthyOption(lotSize) then
      Failure(ValueError(MissingFiltersPrefix + symbol))
    else
      var tickRaw :- Subscript(priceFilter.value, "tickSize");
      var tickSize :- ToFloat(tickRaw, toFloat);
      var stepRaw :- Subscript(lotSize.value, "stepSize");
      var stepSize :- ToFloat(stepRaw, toFloat);
      var minQtyRaw :- Subscript(lotSize.value, "minQty");
      var minQty :- ToFloat(minQtyRaw, toFloat);
      Success(SymbolMeta(symbol, tickSize, stepSize, minQty))
  }

  /** Every entry of the filter map is a non-empty dict, so it is truthy. */
  lemma {:induction false} FilterMapValuesTruthy(fs: seq<Json>)
    requires FilterMap(fs).Success?
    ensures forall t :: t in FilterMap(fs).value ==> FilterMap(fs).value[t].Dict? && Truthy(FilterMap(fs).value[t])
  {
    if fs != [] {
      FilterMapValuesTruthy(fs[..|fs| - 1]);
    }
  }

  /** The map has one key per filter type that occurs. */
  lemma {:induction false} FilterMapDomain(fs: seq<Json>, t: Json)
    requires FilterMap(fs).Success?
    ensures t in FilterMap(fs).value <==> exists i :: 0 <= i < |fs| && FilterType(fs[i]) == Success(t)
  {
    if fs != [] {
      var init := fs[..|fs| - 1];
      FilterMapDomain(init, t);
      forall i | 0 <= i < |init| ensures init[i] == fs[i] { }
      if t in FilterMap(fs).value && t !in FilterMap(init).value {
        assert FilterType(fs[|fs| - 1]) == Success(t);
      }
    }
  }

  /** The last entry of a given filter type is the one kept. */
  lemma {:induction false} FilterMapLastWins(fs: seq<Json>, i: nat, t: Json)
    requires FilterMap(fs).Success?
    requires i < |fs| && FilterType(fs[i]) == Success(t)
    requires forall j :: i < j < |fs| ==> FilterType(fs[j]) != Success(t)
    ensures t in FilterMap(fs).value && FilterMap(fs).value[t] == fs[i]
  {
    var init := fs[..|fs| - 1];
    if i < |fs| - 1 {
      forall j | i < j < |init| ensures FilterType(init[j]) != Success(t) {
        assert init[j] == fs[j];
      }
      assert init[i] == fs[i];
      FilterMapLastWins(init, i, t);
    }
  }

  /** The comprehension fails on the first entry whose type cannot be read,
      and on no other input. */
  lemma {:induction false} FilterMapFailsAtFirstBad(fs: seq<Json>, i: nat)
    requires i < |fs| && FilterType(fs[i]).Failure?
    requires forall j :: 0 <= j < i ==> FilterType(fs[j]).Success?
    ensures FilterMap(fs) == Failure(FilterType(fs[i]).error)
  {
    var init := fs[..|fs| - 1];
    if i < |fs| - 1 {
      forall j | 0 <= j < i ensures FilterType(init[j]).Success? {
        assert init[j] == fs[j];
      }
      assert init[i] == fs[i];
      FilterMapFailsAtFirstBad(init, i);
    } else {
      FilterMapSucceeds(init);
    }
  }

  lemma {:induction false} FilterMapSucceeds(fs: seq<Json>)
    requires forall j :: 0 <= j < |fs| ==> FilterType(fs[j]).Success?
    ensures FilterMap(fs).Success?
  {
    if fs != [] {
      var init := fs[..|fs| - 1];
      forall j | 0 <= j < |init| ensures FilterType(init[j]).Success? {
        assert init[j] == fs[j];
      }
      FilterMapSucceeds(init);
    }
  }

  /** A response whose `symbols` is missing or empty fails with the error
      naming the requested symbol, and that error arises on no other path. */
  lemma NoSymbolsFails<F>(data: Json, symbol: string, toFloat: Json -> Option<F>)
    ensures ExchangeInfoSymbolOf(data, symbol, toFloat) == Failure(ValueError(NotFoundPrefix + symbol))
            <==> data.Dict? && !Truthy(DictGet(data, "symbols", List([])).value)
  {
    if !(data.Dict? && !Truthy(DictGet(data, "symbols", List([])).value)) {
      if SymbolFilters(data, symbol).Failure? {
        FiltersNeverNotFound(data, symbol);
      } else {
        assert |MissingFiltersPrefix + symbol| != |NotFoundPrefix + symbol|;
      }
    }
  }

  /** Past the `symbols` check, no step fails with the not-found error. */
  lemma FiltersNeverNotFound(data: Json, symbol: string)
    requires !(data.Dict? && !Truthy(DictGet(data, "symbols", List([])).value))
    requires SymbolFilters(data, symbol).Failure?
    ensures SymbolFilters(data, symbol).error != ValueError(NotFoundPrefix + symbol)
  {
    if data.Dict? {
      var symbols := DictGet(data, "symbols", List([])).value;
      var s0 := First(symbols);
      if s0.Success? {
        var filters := DictGet(s0.value, "filters", List([]));
        if filters.Success? && Iterate(filters.value).Success? {
          FilterMapErrors(Iterate(filters.value).value);
        }
      }
    }
  }

  /** The comprehension only fails with a KeyError or a TypeError. */
  lemma {:induction false} FilterMapErrors(fs: seq<Json>)
    ensures FilterMap(fs).Failure? ==> FilterMap(fs).error.KeyError? || FilterMap(fs).error.TypeError?
  {
    if fs != [] {
      FilterMapErrors(fs[..|fs| - 1]);
    }
  }

  /** Once the filter map is built, a missing PRICE_FILTER or LOT_SIZE fails
      with the error naming the symbol, and nothing is returned. */
  lemma MissingFilterFails<F>(data: Json, symbol: string, toFloat: Json -> Option<F>)
    requires SymbolFilters(data, symbol).Success?
    requires Str("PRICE_FILTER") !in SymbolFilters(data, symbol).value
          || Str("LOT_SIZE") !in SymbolFilters(data, symbol).value
    ensures ExchangeInfoSymbolOf(data, symbol, toFloat) == Failure(ValueError(MissingFiltersPrefix + symbol))
  {
  }

  /** On success the result carries the requested symbol (not the entry's own
      name), tickSize from PRICE_FILTER, stepSize and minQty from LOT_SIZE. */
  lemma SuccessProjects<F>(data: Json, symbol: string, toFloat: Json -> Option<F>, meta: SymbolMeta<F>)
    requires ExchangeInfoSymbolOf(data, symbol, toFloat) == Success(meta)
    ensures SymbolFilters(data, symbol).Success?
    ensures var m := SymbolFilters(data, symbol).value;
            && Str("PRICE_FILTER") in m && Str("LOT_SIZE") in m
            && meta.symbol == symbol
            && Subscript(m[Str("PRICE_FILTER")], "tickSize").Success?
            && toFloat(Subscript(m[Str("PRICE_FILTER")], "tickSize").value) == Some(meta.tickSize)
            && Subscript(m[Str("LOT_SIZE")], "stepSize").Success?
            && toFloat(Subscript(m[Str("LOT_SIZE")], "stepSize").value) == Some(meta.stepSize)
            && Subscript(m[Str("LOT_SIZE")], "minQty").Success?
            && toFloat(Subscript(m[Str("LOT_SIZE")], "minQty").value) == Some(meta.minQty)
  {
  }

  /** Conversely: with both filters present and their fields convertible,
      extraction succeeds. */
  lemma SuccessWhenFiltersPresent<F>(data: Json, symbol: string, toFloat: Json -> Option<F>)
    requires SymbolFilters(data, symbol).Success?
    requires var m := SymbolFilters(data, symbol).value;
             && Str("PRICE_FILTER") in m && Str("LOT_SIZE") in m
             && Subscript(m[Str("PRICE_FILTER")], "tickSize").Success?
             && toFloat(Subscript(m[Str("PRICE_FILTER")], "tickSize").value).Some?
             && Subscript(m[Str("LOT_SIZE")], "stepSize").Success?
             && toFloat(Subscript(m[Str("LOT_SIZE")], "stepSize").value).Some?
             && Subscript(m[Str("LOT_SIZE")], "minQty").Success?
             && toFloat(Subscript(m[Str("LOT_SIZE")], "minQty").value).Some?
    ensures ExchangeInfoSymbolOf(data, symbol, toFloat).Success?
  {
    var m := SymbolFilters(data, symbol).value;
    var fs := Iterate(DictGet(First(DictGet(data, "symbols", List([])).value).value, "filters", List([])).value).value;
    FilterMapValuesTruthy(fs);
  }

  /** Only `symbols[0]` is read: the entries after it do not matter. */
  lemma FirstSymbolOnly(fields: seq<(string, Json)>, s0: Json, rest: seq<Json>, symbol: string)
    requires Get(fields, "symbols") == Some(List([s0] + rest))
    ensures SymbolFilters(Dict(fields), symbol) == SymbolFilters(Dict([("symbols", List([s0]))]), symbol)
  {
  }

  /** A symbol entry without `filters` gives an empty map. */
  lemma MissingFiltersKeyIsEmpty(s0Fields: seq<(string, Json)>, symbol: string)
    requires Get(s0Fields, "filters").None?
    ensures SymbolFilters(Dict([("symbols", List([Dict(s0Fields)]))]), symbol) == Success(map[])
  {
  }

  /** A server time sent as a decimal string reads back as the same integer. */
  lemma ServerTimeOfString(n: int)
    ensures ServerTime(Dict([("serverTime", Str(IntToDecimal(n)))])) == Success(n)
  {
    IntRoundTrip(n);
  }

  /** A response without `serverTime` fails with a KeyError on that field. */
  lemma ServerTimeMissing(fields: seq<(string, Json)>)
    requires Get(fields, "serverTime").None?
    ensures ServerTime(Dict(fields)) == Failure(KeyError(Str("serverTime")))
  {
  }

  /** A server time sent as a JSON integer is returned as that integer,
      whatever else the response holds. */
  lemma ServerTimeOfInteger(fields: seq<(string, Json)>, n: int)
    requires Get(fields, "serverTime") == Some(Integer(n))
    ensures ServerTime(Dict(fields)) == Success(n)
  {
  }

  /** The integer a mock returns is the integer the caller gets. */
  lemma ServerTimeExample()
    ensures ServerTime(Dict([("serverTime", Integer(1700000000000))])) == Success(1700000000000)
  {
    ServerTimeOfInteger([("serverTime", Integer(1700000000000))], 1700000000000);
  }

  const ExamplePriceFilter: Json := Dict([("filterType", Str("PRICE_FILTER")), ("tickSize", Str("0.10"))])
  const ExampleLotSize: Json :=
    Dict([("filterType", Str("LOT_SIZE")), ("stepSize", Str("0.001")), ("minQty", Str("0.001"))])
  const ExampleSymbol: Json := Dict([("symbol", Str("BTCUSDT")), ("filters", List([ExamplePriceFilter, ExampleLotSize]))])
  const ExampleResponse: Json := Dict([("symbols", List([ExampleSymbol]))])

  lemma ExampleFilters()
    ensures SymbolFilters(ExampleResponse, "BTCUSDT") ==
            Success(map[Str("PRICE_FILTER") := ExamplePriceFilter, Str("LOT_SIZE") := ExampleLotSize])
  {
    var pf, ls := ExamplePriceFilter, ExampleLotSize;
    assert FilterType(pf) == Success(Str("PRICE_FILTER"));
    assert FilterType(ls) == Success(Str("LOT_SIZE"));
    assert [pf, ls][..1] == [pf];
    assert [pf][..0] == [];
    assert FilterMap([pf]) == Success(map[Str("PRICE_FILTER") := pf]);
    assert ExampleSymbol.fields[1..] == [("filters", List([pf, ls]))];
    assert Get(ExampleSymbol.fields, "filters") == Some(List([pf, ls]));
    assert FilterMap([pf, ls]) == Success(map[Str("PRICE_FILTER") := pf, Str("LOT_SIZE") := ls]);
  }

  /** One symbol with PRICE_FILTER.tickSize "0.10" and LOT_SIZE stepSize and
      minQty "0.001" gives those three conversions. */
  lemma ExchangeInfoExample<F>(toFloat: Json -> Option<F>, tick: F, step: F)
    requires toFloat(Str("0.10")) == Some(tick) && toFloat(Str("0.001")) == Some(step)
    ensures ExchangeInfoSymbolOf(ExampleResponse, "BTCUSDT", toFloat) == Success(SymbolMeta("BTCUSDT", tick, step, step))
  {
    ExampleFilters();
    assert Subscript(ExamplePriceFilter, "tickSize") == Success(Str("0.10"));
    assert Subscript(ExampleLotSize, "stepSize") == Success(Str("0.001"));
    assert ExampleLotSize.fields[2..] == [("minQty", Str("0.001"))];
    assert Subscript(ExampleLotSize, "minQty") == Success(Str("0.001"));
  }

  /** An empty `symbols` list fails naming the requested symbol. */
  lemma EmptySymbolsExample<F>(toFloat: Json -> Option<F>)
    ensures ExchangeInfoSymbolOf(Dict([("symbols", List([]))]), "BTCUSDT", toFloat)
            == Failure(ValueError(NotFoundPrefix + "BTCUSDT"))
  {
  }

  class BinanceUsdmPublicClient {
    const baseUrl: string
    const timeoutSec: int

    /** The stored base URL has its trailing '/' removed. */
    constructor (baseUrl: string, timeoutSec: int)
      ensures this.baseUrl == RStrip(baseUrl, '/') && this.timeoutSec == timeoutSec
    {
      this.baseUrl := RStrip(baseUrl, '/');
      this.timeoutSec := timeoutSec;
    }

    /** `_get(path, params)`: a GET to `base_url + path`, no headers. */
    method Get(path: string, params: seq<Entry>, lib: Library)
      returns (req: Request, resp: Result<Json, Error>)
      ensures req.url == baseUrl + path && req.params == params
      ensures req.headers == [] && req.timeoutSec == timeoutSec
      ensures resp == lib.httpGet(req)
    {
      var url := baseUrl + path;
      req := Request(url, params, [], timeoutSec);
      resp := lib.httpGet(req);
    }

    /** `ping()`: succeeds exactly when the GET does. */
    method Ping(lib: Library) returns (r: Result<(), Error>)
      ensures var resp := lib.httpGet(Request(baseUrl + PingPath, [], [], timeoutSec));
              r == if resp.Success? then Success(()) else Failure(resp.error)
    {
      var _, resp := Get(PingPath, [], lib);
      if resp.Failure? {
        return Failure(resp.error);
      }
      r := Success(());
    }

    /** `server_time_ms()`. */
    method ServerTimeMs(lib: Library) returns (r: Result<int, Error>)
      ensures var resp := lib.httpGet(Request(baseUrl + TimePath, [], [], timeoutSec));
              r == if resp.Success? then ServerTime(resp.value) else Failure(resp.error)
    {
      var _, resp := Get(TimePath, [], lib);
      if resp.Failure? {
        return Failure(resp.error);
      }
      r := ServerTime(resp.value);
    }

    /** `exchange_info_symbol(symbol)`: the GET carries `symbol` as its only
        query parameter. */
    method ExchangeInfoSymbol<F>(symbol: string, lib: Library, toFloat: Json -> Option<F>)
      returns (r: Result<SymbolMeta<F>, Error>)
      ensures var resp := lib.httpGet(Request(baseUrl + ExchangeInfoPath,
                                              [("symbol", Single(StrValue(symbol)))], [], timeoutSec));
              r == if resp.Success? then ExchangeInfoSymbolOf(resp.value, symbol, toFloat)
                   else Failure(resp.error)
    {
      var _, resp := Get(ExchangeInfoPath, [("symbol", Single(StrValue(symbol)))], lib);
      if resp.Failure? {
        return Failure(resp.error);
      }
      r := ExchangeInfoSymbolOf(resp.value, symbol, toFloat);
    }
  }
}
