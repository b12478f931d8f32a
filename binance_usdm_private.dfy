/** The signed (USER_DATA) client for Binance USD-M Futures: how a signed
    request's parameters, query string and URL are assembled. */
module BinanceUsdmPrivate {
  import opened Wrappers
  import opened Strings
  import opened Json
  import opened Params
  import opened UrlEncode
  import opened Signer
  import opened Http

  const DemoBaseUrl: string := "https://demo-fapi.binance.com"
  const DefaultTimeoutSec: int := 10
  const DefaultRecvWindowMs: int := 5000

  const AccountPath: string := "/fapi/v2/account"
  const BalancePath: string := "/fapi/v2/balance"
  const PositionRiskPath: string := "/fapi/v2/positionRisk"

  datatype BinanceKeys = BinanceKeys(apiKey: string, apiSecret: string)

  /** The parameter dict `_signed_get` signs: a copy of the caller's, then
      `p["timestamp"] = now`, then `p.setdefault("recvWindow", recvWindowMs)`. */
  function AssembleParams(caller: seq<Entry>, now: nat, recvWindowMs: int): seq<Entry>
  {
    AssignDefault(Assign(caller, "timestamp", Single(IntValue(now))),
                  "recvWindow", Single(IntValue(recvWindowMs)))
  }

  /** The parameters `position_risk_v2` passes: `symbol` only when it is truthy. */
  function PositionRiskParams(symbol: Option<string>): seq<Entry>
  {
    if symbol.Some? && symbol.value != "" then [("symbol", Single(StrValue(symbol.value)))] else []
  }

  /** The assembled dict is still a dict: its keys are distinct. */
  lemma AssembleUnique(caller: seq<Entry>, now: nat, recvWindowMs: int)
    requires UniqueKeys(caller)
    ensures UniqueKeys(AssembleParams(caller, now, recvWindowMs))
  {
    AssignUnique(caller, "timestamp", Single(IntValue(now)));
  }

  /** `timestamp` is always the clock value, whatever the caller gave. */
  lemma TimestampForced(caller: seq<Entry>, now: nat, recvWindowMs: int)
    ensures Lookup(AssembleParams(caller, now, recvWindowMs), "timestamp") == Some(Single(IntValue(now)))
  {
    var ts := Single(IntValue(now));
    AssignLookup(caller, "timestamp", ts, "timestamp");
    AssignDefaultLookup(Assign(caller, "timestamp", ts), "recvWindow", Single(IntValue(recvWindowMs)), "timestamp");
  }

  /** A caller's `timestamp` keeps its position; otherwise `timestamp` comes
      right after all of the caller's keys. */
  lemma TimestampPosition(caller: seq<Entry>, now: nat, recvWindowMs: int)
    ensures IndexOf(AssembleParams(caller, now, recvWindowMs), "timestamp") ==
            if HasKey(caller, "timestamp") then IndexOf(caller, "timestamp") else Some(|caller|)
  {
    var ts := Single(IntValue(now));
    AssignIndexOf(caller, "timestamp", ts, "timestamp");
    AssignDefaultIndexOf(Assign(caller, "timestamp", ts), "recvWindow", Single(IntValue(recvWindowMs)), "timestamp");
  }

  /** `recvWindow` is the configured default exactly when the caller did not
      supply one; a caller's `recvWindow` keeps its value and its position,
      and a defaulted one goes last. */
  lemma RecvWindowDefaulted(caller: seq<Entry>, now: nat, recvWindowMs: int)
    ensures Lookup(AssembleParams(caller, now, recvWindowMs), "recvWindow") ==
            if HasKey(caller, "recvWindow") then Lookup(caller, "recvWindow")
            else Some(Single(IntValue(recvWindowMs)))
    ensures IndexOf(AssembleParams(caller, now, recvWindowMs), "recvWindow") ==
            if HasKey(caller, "recvWindow") then IndexOf(caller, "recvWindow")
            else Some(|AssembleParams(caller, now, recvWindowMs)| - 1)
  {
    var ts := Single(IntValue(now));
    var rw := Single(IntValue(recvWindowMs));
    var withTs := Assign(caller, "timestamp", ts);
    AssignLookup(caller, "timestamp", ts, "recvWindow");
    AssignIndexOf(caller, "timestamp", ts, "recvWindow");
    AssignDefaultLookup(withTs, "recvWindow", rw, "recvWindow");
    AssignDefaultIndexOf(withTs, "recvWindow", rw, "recvWindow");
  }

  /** Every other caller key keeps its value and its position. */
  lemma CallerKeysKept(caller: seq<Entry>, now: nat, recvWindowMs: int, k: string)
    requires k != "timestamp" && k != "recvWindow"
    ensures Lookup(AssembleParams(caller, now, recvWindowMs), k) == Lookup(caller, k)
    ensures IndexOf(AssembleParams(caller, now, recvWindowMs), k) == IndexOf(caller, k)
  {
    var ts := Single(IntValue(now));
    var withTs := Assign(caller, "timestamp", ts);
    AssignLookup(caller, "timestamp", ts, k);
    AssignIndexOf(caller, "timestamp", ts, k);
    AssignDefaultLookup(withTs, "recvWindow", Single(IntValue(recvWindowMs)), k);
    AssignDefaultIndexOf(withTs, "recvWindow", Single(IntValue(recvWindowMs)), k);
  }

  /** The key order: the caller's keys, then `timestamp` if it was new, then
      `recvWindow` if it was new. */
  lemma AssembledKeys(caller: seq<Entry>, now: nat, recvWindowMs: int)
    ensures Keys(AssembleParams(caller, now, recvWindowMs)) ==
            Keys(caller)
            + (if HasKey(caller, "timestamp") then [] else ["timestamp"])
            + (if HasKey(caller, "recvWindow") then [] else ["recvWindow"])
  {
    var ts := Single(IntValue(now));
    var withTs := Assign(caller, "timestamp", ts);
    AssignKeys(caller, "timestamp", ts);
    AssignIndexOf(caller, "timestamp", ts, "recvWindow");
    AssignDefaultKeys(withTs, "recvWindow", Single(IntValue(recvWindowMs)));
  }

  /** With no caller parameters the order is exactly [timestamp, recvWindow]. */
  lemma NoParamsOrder(now: nat, recvWindowMs: int)
    ensures AssembleParams([], now, recvWindowMs) ==
            [("timestamp", Single(IntValue(now))), ("recvWindow", Single(IntValue(recvWindowMs)))]
  {
  }

  /** For position_risk_v2 a non-empty symbol comes first; an empty or absent
      one is left out. */
  lemma PositionRiskOrder(symbol: Option<string>, now: nat, recvWindowMs: int)
    ensures Keys(AssembleParams(PositionRiskParams(symbol), now, recvWindowMs)) ==
            if symbol.Some? && symbol.value != "" then ["symbol", "timestamp", "recvWindow"]
            else ["timestamp", "recvWindow"]
  {
    AssembledKeys(PositionRiskParams(symbol), now, recvWindowMs);
  }

  /** The query an endpoint without parameters signs: the timestamp's digits,
      then the receive window's. */
  lemma NoParamsQuery(now: nat, recvWindowMs: int, quote: string -> string)
    ensures Encode(AssembleParams([], now, recvWindowMs), quote) ==
            quote("timestamp") + "=" + quote(NatToDecimal(now)) + "&" +
            quote("recvWindow") + "=" + quote(IntToDecimal(recvWindowMs))
  {
    NoParamsOrder(now, recvWindowMs);
    var es := AssembleParams([], now, recvWindowMs);
    FlattenSingles(es);
    var ps := Flatten(es);
    assert ps == [("timestamp", NatToDecimal(now)), ("recvWindow", IntToDecimal(recvWindowMs))];
    RenderAllAt(ps, quote);
    var parts := RenderAll(ps, quote);
    assert parts == [Render(ps[0], quote), Render(ps[1], quote)];
    assert Join(parts, '&') == parts[0] + "&" + parts[1];
  }

  class BinanceUsdmPrivateClient {
    const keys: BinanceKeys
    const baseUrl: string
    const timeoutSec: int
    const recvWindowMs: int

    /** The stored base URL has its trailing '/' removed. */
    constructor (keys: BinanceKeys, baseUrl: string, timeoutSec: int, recvWindowMs: int)
      ensures this.keys == keys && this.baseUrl == RStrip(baseUrl, '/')
      ensures this.timeoutSec == timeoutSec && this.recvWindowMs == recvWindowMs
    {
      this.keys := keys;
      this.baseUrl := RStrip(baseUrl, '/');
      this.timeoutSec := timeoutSec;
      this.recvWindowMs := recvWindowMs;
    }

    /** `_sign`: the signed query string for the dict `p`. */
    function SignParams(p: seq<Entry>, lib: Library): string
    {
      Sign(keys.apiSecret, p, lib.quotePlus, lib.hmacSha256Hex)
    }

    /** The GET `_signed_get` sends: `base_url + path + "?" + signed_qs`, with
        the API key as the only header. */
    function SignedRequest(path: string, caller: seq<Entry>, now: nat, lib: Library): Request
    {
      Request(baseUrl + path + "?" + SignParams(AssembleParams(caller, now, recvWindowMs), lib),
              [], [("X-MBX-APIKEY", keys.apiKey)], timeoutSec)
    }

    /** `_signed_get(path, params)` with the clock read as `now`. It works on a
        copy: the caller's dict is not in any modifies clause. */
    method SignedGet(path: string, params: ParamDict?, now: nat, lib: Library)
      returns (req: Request, resp: Result<Json, Error>)
      requires params != null ==> params.Valid()
      ensures req == SignedRequest(path, if params == null then [] else params.entries, now, lib)
      ensures resp == lib.httpGet(req)
    {
      var p := new ParamDict.Copy(params);
      p.Set("timestamp", Single(IntValue(now)));
      var _ := p.SetDefault("recvWindow", Single(IntValue(recvWindowMs)));
      var signedQs := SignParams(p.entries, lib);
      var url := baseUrl + path + "?" + signedQs;
      req := Request(url, [], [("X-MBX-APIKEY", keys.apiKey)], timeoutSec);
      resp := lib.httpGet(req);
    }

    /** `account_v2`. */
    method AccountV2(now: nat, lib: Library) returns (req: Request, resp: Result<Json, Error>)
      ensures req == SignedRequest(AccountPath, [], now, lib)
      ensures resp == lib.httpGet(req)
    {
      req, resp := SignedGet(AccountPath, null, now, lib);
    }

    /** `balance_v2`. */
    method BalanceV2(now: nat, lib: Library) returns (req: Request, resp: Result<Json, Error>)
      ensures req == SignedRequest(BalancePath, [], now, lib)
      ensures resp == lib.httpGet(req)
    {
      req, resp := SignedGet(BalancePath, null, now, lib);
    }

    /** `position_risk_v2(symbol)`. */
    method PositionRiskV2(symbol: Option<string>, now: nat, lib: Library)
      returns (req: Request, resp: Result<Json, Error>)
      ensures req == SignedRequest(PositionRiskPath, PositionRiskParams(symbol), now, lib)
      ensures resp == lib.httpGet(req)
    {
      var params := new ParamDict.Empty();
      if symbol.Some? && symbol.value != "" {
        params.Set("symbol", Single(StrValue(symbol.value)));
      }
      req, resp := SignedGet(PositionRiskPath, params, now, lib);
    }
  }

  /** A signed request leaves the caller's dict as it was. */
  method SignedGetLeavesCallerDict(c: BinanceUsdmPrivateClient, path: string, params: ParamDict,
                                   now: nat, lib: Library)
    requires params.Valid()
    ensures params.entries == old(params.entries)
  {
    var _, _ := c.SignedGet(path, params, now, lib);
  }

  /** The signed URL starts with the stripped base URL and the path, and its
      query verifies against the secret: the signature covers exactly the
      parameters before it. */
  lemma SignedRequestVerifies(c: BinanceUsdmPrivateClient, path: string, caller: seq<Entry>,
                              now: nat, lib: Library)
    requires HexOutput(lib.hmacSha256Hex)
    ensures var url := c.SignedRequest(path, caller, now, lib).url;
            var prefix := c.baseUrl + path + "?";
            prefix <= url && Verifies(c.keys.apiSecret, url[|prefix|..], lib.hmacSha256Hex)
  {
    var prefix := c.baseUrl + path + "?";
    var qs := c.SignParams(AssembleParams(caller, now, c.recvWindowMs), lib);
    assert (prefix + qs)[|prefix|..] == qs;
    SignVerifies(c.keys.apiSecret, AssembleParams(caller, now, c.recvWindowMs), lib.quotePlus, lib.hmacSha256Hex);
  }
}
