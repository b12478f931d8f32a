# Binance USD-M Futures clients: request assembly and response extraction

This project models the two REST clients of a small Binance USD-M Futures
toolkit and proves properties of that model. The private client sends signed
(USER_DATA) requests. The public client sends unsigned requests and reads
market metadata out of the responses.

Private client (`BinanceUsdmPrivate`):

- The constructor strips trailing '/' from the base URL.
- `_signed_get` copies the caller's parameter dict. It forces `timestamp` to
  the clock value and sets `recvWindow` to the configured default only when
  the caller did not give one.
- `_sign` url-encodes the dict in insertion order and appends
  `&signature=<hex HMAC-SHA256(secret, query)>`.
- The request URL is `base_url + path + "?" + signed query`.
- `account_v2`, `balance_v2` and `position_risk_v2` build the parameters for
  their endpoints.

Public client (`BinanceUsdmPublic`):

- The constructor strips the base URL the same way, and `_get` targets
  `base_url + path`.
- `server_time_ms` returns `int(data["serverTime"])`.
- `exchange_info_symbol` takes the first entry of `symbols`. It builds a
  filter-type to filter map in which the last duplicate wins, fails when
  `symbols` is empty or when `PRICE_FILTER` or `LOT_SIZE` is missing, and
  projects three fields into `SymbolMeta`.

Supporting modules:

- `Params` is a Python dict as an insertion-ordered sequence of pairs with
  distinct keys. Assigning a present key keeps its position; a new key goes
  last. `ParamDict` is the mutable dict.
- `UrlEncode` is `urlencode(params, doseq=True)`.
- `Signer` is the signature layout, together with what a receiver checks.
- `Json` holds the decoded response and the Python exceptions raised while
  picking it apart.
- `Strings` holds `rstrip`, `join`/`split`, `str(int)` and `int(str)`.
- `Http` holds the request value and the library calls.

The library calls are not interpreted. They are the function-typed fields of
`Http.Library`: `quote_plus` for one key or value, the HMAC-SHA256 hexdigest
(RFC 2104 over FIPS 180-4 SHA-256, keyed by the UTF-8 secret), and the HTTP
GET. Where a proof needs a fact about one of them, the lemma takes it as a
hypothesis:

- `NoSeparators`: quote_plus never emits '&' or '='.
- `Injective`: quote_plus maps distinct strings to distinct strings.
- `HexOutput`: the hexdigest is lowercase hexadecimal.

The clock is the parameter `now`, and `float()` is the parameter `toFloat`.

Two behaviours worth knowing:

- A caller-supplied `timestamp` is not rejected. It is overwritten in place
  and keeps its position.
- The missing-filter error does not say which filter is missing. Its message
  is "Missing PRICE_FILTER or LOT_SIZE for symbol: " followed by the symbol.

## Model

| member | source | states |
|---|---|---|
| Strings.RStrip | adapters/binance_usdm_private.py:35 | the result is a prefix of the input, does not end in the stripped character, and everything removed is that character |
| Strings.RStripUnique | adapters/binance_usdm_private.py:35 | those three facts determine the stripped string uniquely |
| Strings.RStripIdempotent | adapters/binance_usdm_private.py:35 | stripping the stored base URL again changes nothing |
| BinanceUsdmPrivate.BinanceUsdmPrivateClient.constructor | adapters/binance_usdm_private.py:27-37 | keys, timeout and receive window are stored as given; the base URL is stored with trailing '/' removed |
| BinanceUsdmPublic.BinanceUsdmPublicClient.constructor | adapters/binance_usdm_public.py:23-25 | the base URL is stored with trailing '/' removed, and the timeout as given |
| Params.ParamDict.Copy | adapters/binance_usdm_private.py:54 | `dict(params or {})` is a fresh dict holding the caller's entries in order, empty for None |
| Params.ParamDict.Set | adapters/binance_usdm_private.py:55 | `p[k] = v` keeps keys distinct and makes the entries `Assign(old entries, k, v)` |
| Params.ParamDict.SetDefault | adapters/binance_usdm_private.py:56 | `p.setdefault(k, v)` keeps keys distinct, makes the entries `AssignDefault(old entries, k, v)` and returns the value now under `k` |
| Params.ParamDict.Empty | adapters/binance_usdm_private.py:78 | the constructor of `{}`: a dict with no entries |
| Params.Assign | adapters/binance_usdm_private.py:55 | definition of `p[k] = v` on the entry sequence: a present key is replaced where it stands, an absent key is appended |
| Params.AssignDefault | adapters/binance_usdm_private.py:56 | definition of `p.setdefault(k, v)` on the entry sequence: the entries are unchanged when `k` is present, and `(k, v)` is appended otherwise |
| Params.AssignInPlace | adapters/binance_usdm_private.py:55 | assigning a present key replaces that entry where it stands; assigning an absent key appends it |
| Params.AssignIndexOf | adapters/binance_usdm_private.py:55 | after an assignment every key keeps its position, and a new key takes position `len(p)` |
| Params.AssignLookup | adapters/binance_usdm_private.py:55 | after `p[k] = v`, `p[k]` is `v` and every other key keeps its value |
| Params.AssignKeys | adapters/binance_usdm_private.py:55 | the key order is unchanged when the key was present, and gains the key at the end otherwise |
| Params.AssignUnique | adapters/binance_usdm_private.py:55 | assignment keeps the keys distinct |
| Params.AppendIndexOf | adapters/binance_usdm_private.py:56 | appending an absent key puts it last and moves no other key |
| Params.AssignDefaultIndexOf | adapters/binance_usdm_private.py:56 | setdefault moves no key and puts a new key last |
| Params.AssignDefaultLookup | adapters/binance_usdm_private.py:56 | setdefault stores the default only under an absent key; every present value is untouched |
| Params.AssignDefaultKeys | adapters/binance_usdm_private.py:56 | setdefault appends the key exactly when it was absent |
| Params.AssignDefaultUnique | adapters/binance_usdm_private.py:56 | setdefault keeps the keys distinct |
| UrlEncode.ScalarText | adapters/binance_usdm_private.py:45 | definition of `str(x)` for the scalar parameter values: a string as is, an integer in decimal |
| UrlEncode.Expand | adapters/binance_usdm_private.py:45 | definition of a list value under `doseq=True`: one `(k, str(element))` pair per element, in order |
| UrlEncode.EntryPairs | adapters/binance_usdm_private.py:45 | definition of the pairs of one dict entry: one pair for a scalar, the expansion for a list |
| UrlEncode.Flatten | adapters/binance_usdm_private.py:45 | definition of all pairs of the dict, entry by entry in insertion order |
| UrlEncode.Encode | adapters/binance_usdm_private.py:45 | definition of `urlencode(params, doseq=True)`: the pairs rendered as `quote(k)=quote(v)` and joined with '&' |
| UrlEncode.ExpandAt | adapters/binance_usdm_private.py:45 | a list value expands to one `key=element` pair per element, in list order |
| UrlEncode.FlattenConcat | adapters/binance_usdm_private.py:45 | encoding goes entry by entry, so the pairs follow the dict's insertion order |
| UrlEncode.FlattenSingles | adapters/binance_usdm_private.py:45 | with single values the i-th pair is the i-th entry's key and `str(value)` |
| UrlEncode.QuerySplits | adapters/binance_usdm_private.py:45 | splitting the query on '&' gives back exactly the rendered `quote(k)=quote(v)` pieces, in order |
| UrlEncode.QueryDeterminesPairs | adapters/binance_usdm_private.py:45 | equal queries come from the same pairs in the same order, so changing a value or the order changes the query |
| Signer.Sign | adapters/binance_usdm_private.py:45-51 | definition of the signed string: the query, then `&signature=`, then the HMAC of the query under the secret |
| Signer.SignatureLast | adapters/binance_usdm_private.py:42-51 | the signed string's '&'-fields are the query's fields followed by `signature=<mac of the query>`, which is last |
| Signer.SignVerifies | adapters/binance_usdm_private.py:42-51 | the part before the signature field is exactly the string that was signed, so a receiver's check passes |
| Signer.SignDeterminesPairs | adapters/binance_usdm_private.py:42-51 | equal signed strings come from the same parameter pairs in the same order |
| Strings.IntRoundTrip | adapters/binance_usdm_private.py:55 | the decimal text of an integer parameter such as the timestamp reads back as the same integer |
| BinanceUsdmPrivate.AssembleParams | adapters/binance_usdm_private.py:53-56 | definition of the dict `_signed_get` signs: the caller's entries, `timestamp` assigned the clock value, `recvWindow` set by default |
| BinanceUsdmPrivate.PositionRiskParams | adapters/binance_usdm_private.py:78-80 | definition of the parameters of `position_risk_v2`: `symbol` only when it is truthy |
| BinanceUsdmPrivate.BinanceUsdmPrivateClient.SignParams | adapters/binance_usdm_private.py:42-51 | definition of `_sign`: `Signer.Sign` under the client's secret |
| BinanceUsdmPrivate.BinanceUsdmPrivateClient.SignedRequest | adapters/binance_usdm_private.py:58-62 | definition of the GET `_signed_get` sends: `base_url + path + "?" + signed query`, the API key header and the timeout |
| BinanceUsdmPrivate.AssembleUnique | adapters/binance_usdm_private.py:53-56 | the assembled parameters still have distinct keys |
| BinanceUsdmPrivate.TimestampForced | adapters/binance_usdm_private.py:55 | `timestamp` always equals the clock value, whatever the caller passed |
| BinanceUsdmPrivate.TimestampPosition | adapters/binance_usdm_private.py:55 | a caller's `timestamp` keeps its position, otherwise it comes right after all caller keys |
| BinanceUsdmPrivate.RecvWindowDefaulted | adapters/binance_usdm_private.py:56 | `recvWindow` is the configured default when the caller gave none (and then it is last); a caller's value and position are kept |
| BinanceUsdmPrivate.CallerKeysKept | adapters/binance_usdm_private.py:53-56 | every other caller key keeps its value and its position |
| BinanceUsdmPrivate.AssembledKeys | adapters/binance_usdm_private.py:53-56 | the keys are the caller's keys, then `timestamp` if new, then `recvWindow` if new |
| BinanceUsdmPrivate.NoParamsOrder | adapters/binance_usdm_private.py:53-56 | without caller parameters the dict is exactly [timestamp=now, recvWindow=default] |
| BinanceUsdmPrivate.PositionRiskOrder | adapters/binance_usdm_private.py:76-81 | with a non-empty symbol the order is [symbol, timestamp, recvWindow]; an empty or absent symbol is omitted |
| BinanceUsdmPrivate.NoParamsQuery | adapters/binance_usdm_private.py:42-56 | the query signed for account and balance is `timestamp=<digits of now>&recvWindow=<digits of default>`, each part quoted |
| BinanceUsdmPrivate.BinanceUsdmPrivateClient.SignedGet | adapters/binance_usdm_private.py:53-64 | the request is `base_url + path + "?" + signed query` over the assembled parameters, with the API key header and the timeout; the result is the transport's |
| BinanceUsdmPrivate.SignedGetLeavesCallerDict | adapters/binance_usdm_private.py:54 | a signed request leaves the caller's dict unchanged |
| BinanceUsdmPrivate.SignedRequestVerifies | adapters/binance_usdm_private.py:58-59 | the URL starts with `base_url + path + "?"` and what follows verifies against the secret |
| BinanceUsdmPrivate.BinanceUsdmPrivateClient.AccountV2 | adapters/binance_usdm_private.py:68-70 | a signed GET of /fapi/v2/account with no caller parameters |
| BinanceUsdmPrivate.BinanceUsdmPrivateClient.BalanceV2 | adapters/binance_usdm_private.py:72-74 | a signed GET of /fapi/v2/balance with no caller parameters |
| BinanceUsdmPrivate.BinanceUsdmPrivateClient.PositionRiskV2 | adapters/binance_usdm_private.py:76-81 | a signed GET of /fapi/v2/positionRisk whose caller parameters hold `symbol` only when it is non-empty |
| BinanceUsdmPublic.BinanceUsdmPublicClient.Get | adapters/binance_usdm_public.py:27-31 | the request targets `base_url + path`, carries the given parameters and no headers, and the result is the transport's |
| BinanceUsdmPublic.BinanceUsdmPublicClient.Ping | adapters/binance_usdm_public.py:33-35 | ping succeeds exactly when the GET of /fapi/v1/ping does, and otherwise carries its error |
| BinanceUsdmPublic.BinanceUsdmPublicClient.ServerTimeMs | adapters/binance_usdm_public.py:37-39 | a transport failure propagates; otherwise the result is `int(data["serverTime"])` |
| BinanceUsdmPublic.IntOf | adapters/binance_usdm_public.py:39 | definition of `int(v)` on a decoded JSON value: integers as is, booleans as 0/1, decimal text parsed, anything else an error |
| BinanceUsdmPublic.ServerTime | adapters/binance_usdm_public.py:39 | definition of `int(data["serverTime"])` on the decoded body |
| BinanceUsdmPublic.ServerTimeOfString | adapters/binance_usdm_public.py:37-39 | a server time sent as decimal text reads back as that integer |
| BinanceUsdmPublic.ServerTimeMissing | adapters/binance_usdm_public.py:39 | a response without `serverTime` fails with a KeyError on that field |
| BinanceUsdmPublic.ServerTimeOfInteger | adapters/binance_usdm_public.py:39 | a response whose `serverTime` is a JSON integer gives that integer, whatever its other fields |
| BinanceUsdmPublic.ServerTimeExample | adapters/binance_usdm_public.py:37-39 | `{"serverTime": 1700000000000}` gives 1700000000000 |
| BinanceUsdmPublic.BinanceUsdmPublicClient.ExchangeInfoSymbol | adapters/binance_usdm_public.py:41-60 | the GET of /fapi/v1/exchangeInfo carries `symbol`; a transport failure propagates, otherwise the decoded body is picked apart as below |
| BinanceUsdmPublic.ExchangeInfoSymbolOf | adapters/binance_usdm_public.py:43-60 | definition of `exchange_info_symbol` on the decoded body: the filter map, the missing-filter check and the three `float` conversions |
| BinanceUsdmPublic.SymbolFilters | adapters/binance_usdm_public.py:43-48 | definition of the filter map of `symbols[0]`, after the not-found check on `symbols` |
| BinanceUsdmPublic.FilterType | adapters/binance_usdm_public.py:48 | definition of `f["filterType"]`, which must be hashable to be a dict key |
| BinanceUsdmPublic.FilterMap | adapters/binance_usdm_public.py:48 | definition of `{f["filterType"]: f for f in fs}`, built left to right |
| BinanceUsdmPublic.NoSymbolsFails | adapters/binance_usdm_public.py:43-45 | the result is the error "Symbol not found in exchangeInfo: <symbol>" exactly when `symbols` is missing or empty (falsy) |
| BinanceUsdmPublic.FiltersNeverNotFound | adapters/binance_usdm_public.py:43-48 | once `symbols` is truthy, no later step raises the not-found error |
| BinanceUsdmPublic.FirstSymbolOnly | adapters/binance_usdm_public.py:47 | only `symbols[0]` is read; the entries after it do not affect the filters |
| BinanceUsdmPublic.MissingFiltersKeyIsEmpty | adapters/binance_usdm_public.py:48 | a symbol entry without `filters` gives an empty filter map |
| BinanceUsdmPublic.FilterMapDomain | adapters/binance_usdm_public.py:48 | the map has a key for a filter type exactly when some entry has that type |
| BinanceUsdmPublic.FilterMapLastWins | adapters/binance_usdm_public.py:48 | for a repeated filter type, the last entry with that type is the one kept |
| BinanceUsdmPublic.FilterMapFailsAtFirstBad | adapters/binance_usdm_public.py:48 | the comprehension fails with the error of the first entry whose `filterType` cannot be read |
| BinanceUsdmPublic.FilterMapSucceeds | adapters/binance_usdm_public.py:48 | the comprehension succeeds when every entry has a usable `filterType` |
| BinanceUsdmPublic.FilterMapErrors | adapters/binance_usdm_public.py:48 | the comprehension only raises KeyError or TypeError |
| BinanceUsdmPublic.FilterMapValuesTruthy | adapters/binance_usdm_public.py:48-53 | every stored filter is a non-empty dict, so `not price_filter` holds only when the filter is absent |
| BinanceUsdmPublic.MissingFilterFails | adapters/binance_usdm_public.py:50-54 | with PRICE_FILTER or LOT_SIZE absent, the result is the error "Missing PRICE_FILTER or LOT_SIZE for symbol: <symbol>" and no meta |
| BinanceUsdmPublic.SuccessProjects | adapters/binance_usdm_public.py:56-60 | on success both filters are present, `symbol` is the requested one, tickSize is `float(PRICE_FILTER.tickSize)`, and stepSize and minQty are `float` of the LOT_SIZE fields |
| BinanceUsdmPublic.SuccessWhenFiltersPresent | adapters/binance_usdm_public.py:50-60 | conversely, with both filters present and their three fields convertible, extraction succeeds |
| BinanceUsdmPublic.ExampleFilters | adapters/binance_usdm_public.py:48 | the filter map of a one-symbol response holds PRICE_FILTER and LOT_SIZE |
| BinanceUsdmPublic.ExchangeInfoExample | adapters/binance_usdm_public.py:41-60 | tickSize "0.10" with stepSize and minQty "0.001" gives those three conversions for BTCUSDT |
| BinanceUsdmPublic.EmptySymbolsExample | adapters/binance_usdm_public.py:43-45 | an empty `symbols` list fails with the error naming the requested symbol |

## Left out

- HTTP transport (`requests.get`, timeouts, `raise_for_status`, `resp.json()`): one uninterpreted call, `Library.httpGet`. Its failure is an `Error`, which the clients pass on unchanged. The model does not restrict which `Error` the transport may return.
- HMAC-SHA256, `hexdigest` and the UTF-8 encoding of secret and query: the uninterpreted `Library.hmacSha256Hex`. Properties needing its output to be hex take `HexOutput` as a hypothesis.
- `quote_plus` on each key and value: the uninterpreted `Library.quotePlus`. Its escaping of '&' and '=' and its injectivity are hypotheses (`NoSeparators`, `Injective`), not proved facts.
- The clock `time.time()` and `_ts_ms`: the timestamp is the parameter `now`, a nat. The float-to-int truncation is not modelled.
- `float(...)` in `SymbolMeta`: the abstract parameter `toFloat`. Its failure is the error `FloatError`.
- Default constructor arguments: both constructors take every argument. The defaults are the constants `DemoBaseUrl`, `ProductionBaseUrl`, `DefaultTimeoutSec` and `DefaultRecvWindowMs`.
- Parameter values other than `str`, `int` and lists of them (bool, float, bytes, nested sequences) are not modelled, because the client only passes strings and integers.
- JSON reals are not part of the `Json` value, because the endpoints modelled send prices and quantities as strings and times as integers.
- `FilterMap` treats `1` and `True` as different keys where Python merges them. Lookups use string keys, so this does not change any result.
- The texts of TypeError, AttributeError and IndexError messages are descriptive, not Python's exact wording.
- `BinanceUsdmPublic.IntOf`: the ValueError message wraps the literal in single quotes. Python uses the string's repr cut at 200 characters, so the texts differ for a literal holding a quote, a backslash or a control character, or longer than 200 characters.
- `Strings.ParseInt`: accepts an optional sign followed by ASCII digits. It does not accept the surrounding whitespace, '_' separators or non-ASCII digits that Python's `int()` also accepts.
- `Json.Get` returns the first field with a key. A decoded object has distinct keys, so this matches the dict. JSON decoding itself is not modelled.
- The console entry points under run/ and the import test under tests/: environment reading, printing and exit codes are outside the modelled core.
