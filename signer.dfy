/** Signing a query string: `query + "&signature=" + hex(HMAC-SHA256(secret, query))`. */
module Signer {
  import opened Strings
  import opened Params
  import opened UrlEncode

  /** The signed query string for the parameters `es`. */
  function Sign(secret: string, es: seq<Entry>, quote: string -> string,
                mac: (string, string) -> string): string
  {
    var query := Encode(es, quote);
    query + "&signature=" + mac(secret, query)
  }

  predicate IsHexDigit(ch: char)
  {
    '0' <= ch <= '9' || 'a' <= ch <= 'f'
  }

  /** hexdigest() yields lowercase hexadecimal digits only. */
  ghost predicate HexOutput(mac: (string, string) -> string)
  {
    forall secret, message, i :: 0 <= i < |mac(secret, message)| ==> IsHexDigit(mac(secret, message)[i])
  }

  /** The receiving side: the last '&'-separated field must be the signature
      of everything before it. */
  predicate Verifies(secret: string, signed: string, mac: (string, string) -> string)
  {
    var parts := Split(signed, '&');
    |parts| >= 2 && parts[|parts| - 1] == "signature=" + mac(secret, Join(parts[..|parts| - 1], '&'))
  }

  lemma HexHasNoAmpersand(mac: (string, string) -> string, secret: string, message: string)
    requires HexOutput(mac)
    ensures '&' !in "signature=" + mac(secret, message)
  {
    var h := mac(secret, message);
    forall i | 0 <= i < |h| ensures h[i] != '&' {
      assert IsHexDigit(h[i]);
    }
  }

  /** The signature field comes last, after exactly the fields of the query. */
  lemma SignatureLast(secret: string, es: seq<Entry>, quote: string -> string,
                      mac: (string, string) -> string)
    requires HexOutput(mac)
    ensures Split(Sign(secret, es, quote, mac), '&') ==
            Split(Encode(es, quote), '&') + ["signature=" + mac(secret, Encode(es, quote))]
  {
    var q := Encode(es, quote);
    var field := "signature=" + mac(secret, q);
    assert Sign(secret, es, quote, mac) == q + ['&'] + field;
    SplitAtSeparator(q, field, '&');
    HexHasNoAmpersand(mac, secret, q);
    SplitNoSeparator(field, '&');
  }

  /** The bytes before the signature field are exactly the bytes that were
      signed, so the signed query verifies. */
  lemma SignVerifies(secret: string, es: seq<Entry>, quote: string -> string,
                     mac: (string, string) -> string)
    requires HexOutput(mac)
    ensures Verifies(secret, Sign(secret, es, quote, mac), mac)
  {
    var q := Encode(es, quote);
    var parts := Split(Sign(secret, es, quote, mac), '&');
    SignatureLast(secret, es, quote, mac);
    assert parts[..|parts| - 1] == Split(q, '&');
    JoinSplit(q, '&');
  }

  /** Equal signed strings come from the same pairs in the same order. */
  lemma SignDeterminesPairs(secret: string, a: seq<Entry>, b: seq<Entry>,
                            quote: string -> string, mac: (string, string) -> string)
    requires HexOutput(mac) && NoSeparators(quote) && Injective(quote)
    requires Sign(secret, a, quote, mac) == Sign(secret, b, quote, mac)
    ensures Flatten(a) == Flatten(b)
  {
    var qa, qb := Encode(a, quote), Encode(b, quote);
    SignatureLast(secret, a, quote, mac);
    SignatureLast(secret, b, quote, mac);
    var pa, pb := Split(qa, '&'), Split(qb, '&');
    assert pa == (pa + ["signature=" + mac(secret, qa)])[..|pa|];
    assert pb == (pb + ["signature=" + mac(secret, qb)])[..|pb|];
    JoinSplit(qa, '&');
    JoinSplit(qb, '&');
    QueryDeterminesPairs(a, b, quote);
  }
}
