/** The HTTP request a client hands to its transport, and the library calls
    beneath the clients, which this model leaves uninterpreted. */
module Http {
  import opened Wrappers
  import opened Json
  import opened Params

  /** `requests.get(url, params=..., headers=..., timeout=...)`. */
  datatype Request = Request(url: string, params: seq<Entry>, headers: seq<(string, string)>, timeoutSec: int)

  /** quotePlus: urllib.parse.quote_plus on one key or value.
      hmacSha256Hex: hmac.new(secret.encode("utf-8"), message.encode("utf-8"),
      hashlib.sha256).hexdigest(), HMAC (RFC 2104) over SHA-256 (FIPS 180-4).
      httpGet: the GET itself, raise_for_status and resp.json(); a failure of
      any of them is some `Error`, which the clients pass on unchanged. */
  datatype Library = Library(
    quotePlus: string -> string,
    hmacSha256Hex: (string, string) -> string,
    httpGet: Request -> Result<Json, Error>)
}
