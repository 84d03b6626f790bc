/**
 * Request signing (authorise.py). The signature is the lowercase hex digest
 * of an HMAC-SHA256 keyed with the secret key over the parameter string
 * `timestamp ++ api key ++ receive window ++ payload`. The HMAC itself is a
 * foreign library call and is passed in as a function from (key, message)
 * to a 64-character lowercase hex digest.
 */
module Authorise {
  /** The receive window from the process configuration (config.py is not part of this model). */
  const RECV_WINDOW: string

  predicate IsLowerHex(c: char) { '0' <= c <= '9' || 'a' <= c <= 'f' }

  predicate IsHexDigest(s: string) { |s| == 64 && forall i :: 0 <= i < |s| ==> IsLowerHex(s[i]) }

  /** What `hexdigest()` of a SHA-256 HMAC returns. */
  type HexDigest = s: string | IsHexDigest(s)
    witness seq(64, _ => '0')

  /** The message that is authenticated: the four parts, in this order, with no separators. */
  function PreImage(timeStamp: string, apiKey: string, payload: string): (r: string)
    ensures |r| == |timeStamp| + |apiKey| + |RECV_WINDOW| + |payload|
    ensures r[..|timeStamp|] == timeStamp
    ensures r[|timeStamp|..|timeStamp| + |apiKey|] == apiKey
    ensures r[|timeStamp| + |apiKey|..|timeStamp| + |apiKey| + |RECV_WINDOW|] == RECV_WINDOW
    ensures r[|timeStamp| + |apiKey| + |RECV_WINDOW|..] == payload
  {
    var r := timeStamp + apiKey + RECV_WINDOW + payload;
    assert r[..|timeStamp|] == timeStamp;
    assert r[|timeStamp|..|timeStamp| + |apiKey|] == apiKey;
    r
  }

  /**
   * `gen_signature(api_key, secret_key, payload, time_stamp)`: the secret key
   * only keys the HMAC; the receive window is the configuration constant.
   */
  function GenSignature(apiKey: string, secretKey: string, payload: string, timeStamp: string,
                        hmacSha256: (string, string) -> HexDigest): (r: HexDigest)
    ensures r == hmacSha256(secretKey, PreImage(timeStamp, apiKey, payload))
    ensures IsHexDigest(r)
  {
    var paramStr := PreImage(timeStamp, apiKey, payload);
    hmacSha256(secretKey, paramStr)
  }

  /**
   * For timestamps of one length (all millisecond clocks between 2001 and 2286
   * print 13 digits) and one API key, distinct timestamps or payloads give
   * distinct signed messages.
   */
  lemma PreImageInjective(t1: string, p1: string, t2: string, p2: string, apiKey: string)
    requires |t1| == |t2|
    requires PreImage(t1, apiKey, p1) == PreImage(t2, apiKey, p2)
    ensures t1 == t2 && p1 == p2
  {
    var n := |t1| + |apiKey| + |RECV_WINDOW|;
    assert PreImage(t1, apiKey, p1)[..|t1|] == t1;
    assert PreImage(t2, apiKey, p2)[..|t2|] == t2;
    assert PreImage(t1, apiKey, p1)[n..] == p1;
    assert PreImage(t2, apiKey, p2)[n..] == p2;
  }

  /**
   * The secret never enters the signed message: two secrets sign the very
   * same parameter string, so the signatures differ only through the HMAC key.
   */
  lemma SecretOnlyKeysTheHmac(apiKey: string, s1: string, s2: string, payload: string, timeStamp: string,
                              hmacSha256: (string, string) -> HexDigest)
    ensures exists m :: GenSignature(apiKey, s1, payload, timeStamp, hmacSha256) == hmacSha256(s1, m)
                     && GenSignature(apiKey, s2, payload, timeStamp, hmacSha256) == hmacSha256(s2, m)
                     && |m| == |timeStamp| + |apiKey| + |RECV_WINDOW| + |payload|
  {
    var m := PreImage(timeStamp, apiKey, payload);
    assert GenSignature(apiKey, s1, payload, timeStamp, hmacSha256) == hmacSha256(s1, m);
  }
}
