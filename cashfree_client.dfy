/**
 * The pure part of the Cashfree gateway client: its configuration, the
 * request headers it authenticates with, and webhook signature verification.
 * The HTTP calls it makes through resty are not part of this model.
 */
module Cashfree {
  import opened Wrappers
  import Base64

  const CashfreeTestURL: string := "https://sandbox.cashfree.com/pg"
  const CashfreeProdURL: string := "https://api.cashfree.com/pg"

  /** The API version every request announces. */
  const ApiVersion: string := "2023-08-01"

  /** A configured client (the retrying HTTP client it also holds is left out). */
  datatype CashfreeClient = CashfreeClient(
    clientID: string,
    clientSecret: string,
    environment: string,
    baseURL: string)

  /** A decoded JSON value, as `encoding/json` builds it into an `interface{}`. */
  datatype JsonValue =
    | JNull
    | JBool(b: bool)
    | JNumber(n: real)
    | JString(s: string)
    | JArray(items: seq<JsonValue>)
    | JObject(fields: map<string, JsonValue>)

  /**
   * A webhook body decoded into Go's `WebhookData`: the `type` member and the
   * untyped `data` object (an absent or null `data` is the empty map, since a
   * lookup in a nil Go map finds nothing).
   */
  datatype WebhookData = WebhookData(eventType: string, data: map<string, JsonValue>)

  /** One vendor share as sent to the gateway; a nil amount or percentage is omitted from the JSON. */
  datatype CashfreeSettlementSplit = CashfreeSettlementSplit(
    vendorID: string,
    amount: Option<real>,
    percentage: Option<real>)

  /** Upper-casing of one ASCII letter; every other character is left alone. */
  function UpperChar(c: char): char {
    if 'a' <= c <= 'z' then (c as int - 'a' as int + 'A' as int) as char else c
  }

  /** `strings.ToUpper`, restricted to ASCII letters. */
  function ToUpper(s: string): (r: string)
    ensures |r| == |s|
    ensures forall i :: 0 <= i < |s| ==> r[i] == UpperChar(s[i])
  {
    if s == [] then [] else [UpperChar(s[0])] + ToUpper(s[1..])
  }

  /** The client for an environment: production when the name is "PROD" in any letter case, sandbox otherwise. */
  function NewCashfreeClient(clientID: string, clientSecret: string, environment: string): (c: CashfreeClient)
    ensures c.clientID == clientID && c.clientSecret == clientSecret && c.environment == environment
    ensures c.baseURL == CashfreeProdURL || c.baseURL == CashfreeTestURL
  {
    var baseURL := if ToUpper(environment) == "PROD" then CashfreeProdURL else CashfreeTestURL;
    CashfreeClient(clientID, clientSecret, environment, baseURL)
  }

  /** The environment names that select production: "prod" spelled in any mix of cases. */
  predicate SpellsProd(environment: string) {
    && |environment| == 4
    && (environment[0] == 'P' || environment[0] == 'p')
    && (environment[1] == 'R' || environment[1] == 'r')
    && (environment[2] == 'O' || environment[2] == 'o')
    && (environment[3] == 'D' || environment[3] == 'd')
  }

  lemma ProdURLIffProdEnvironment(clientID: string, clientSecret: string, environment: string)
    ensures NewCashfreeClient(clientID, clientSecret, environment).baseURL == CashfreeProdURL
        <==> SpellsProd(environment)
    ensures NewCashfreeClient(clientID, clientSecret, environment).baseURL == CashfreeTestURL
        <==> !SpellsProd(environment)
  {
  }

  /** The two clients the test suite builds. */
  lemma ClientCreationExamples()
    ensures NewCashfreeClient("test_client_id", "test_secret", "test")
         == CashfreeClient("test_client_id", "test_secret", "test", CashfreeTestURL)
    ensures NewCashfreeClient("prod_client_id", "prod_secret", "PROD").baseURL == CashfreeProdURL
  {
  }

  /** The headers of every gateway request: credentials, JSON content negotiation, API version. */
  function AuthHeaders(c: CashfreeClient): (h: map<string, string>)
    ensures h.Keys == {"X-Client-Id", "X-Client-Secret", "Content-Type", "Accept", "x-api-version"}
    ensures |h| == 5
    ensures h["X-Client-Id"] == c.clientID && h["X-Client-Secret"] == c.clientSecret
    ensures h["Content-Type"] == "application/json" && h["Accept"] == "application/json"
    ensures h["x-api-version"] == ApiVersion
  {
    var h := map[
      "X-Client-Id" := c.clientID,
      "X-Client-Secret" := c.clientSecret,
      "Content-Type" := "application/json",
      "Accept" := "application/json",
      "x-api-version" := ApiVersion];
    assert "X-Client-Id" != "X-Client-Secret" && "Content-Type" != "Accept";
    h
  }

  /** An HMAC-SHA256 digest: 32 bytes (section 6.2 of FIPS 180-4). */
  type Digest = d: seq<Base64.Byte> | |d| == 32 witness seq(32, _ => 0)

  /**
   * HMAC-SHA256 as in section 2 of RFC 2104, from the key and the message
   * (both as the bytes of their Go strings). Its internals are not modelled:
   * verification is proved for every function of this type.
   */
  type HmacSha256 = (string, string) -> Digest

  /** The signature the gateway sends: base64 of the HMAC of timestamp followed by payload. */
  function ExpectedSignature(hmac: HmacSha256, secret: string, timestamp: string, payload: string): (s: string)
    ensures |s| == 44
  {
    Base64.Encode(hmac(secret, timestamp + payload))
  }

  /** True exactly when the header signature equals the expected one, character for character. */
  function VerifyWebhookSignature(c: CashfreeClient, hmac: HmacSha256, signature: string, timestamp: string, payload: string): (ok: bool)
    ensures ok ==> |signature| == 44
  {
    ExpectedSignature(hmac, c.clientSecret, timestamp, payload) == signature
  }

  /** A signature computed with the client secret over (timestamp, payload) verifies. */
  lemma SignatureRoundTrip(c: CashfreeClient, hmac: HmacSha256, timestamp: string, payload: string)
    ensures VerifyWebhookSignature(c, hmac, ExpectedSignature(hmac, c.clientSecret, timestamp, payload), timestamp, payload)
  {
  }

  /**
   * Comparing encodings is comparing digests: an encoded digest verifies
   * exactly when it is the HMAC of the message under the client secret.
   */
  lemma VerifyComparesDigests(c: CashfreeClient, hmac: HmacSha256, d: Digest, timestamp: string, payload: string)
    ensures VerifyWebhookSignature(c, hmac, Base64.Encode(d), timestamp, payload)
        <==> d == hmac(c.clientSecret, timestamp + payload)
  {
    Base64.EncodeInjective(d, hmac(c.clientSecret, timestamp + payload));
  }

  /** Only the concatenation of timestamp and payload is signed. */
  lemma OnlyConcatenationSigned(c: CashfreeClient, hmac: HmacSha256, signature: string,
                                t1: string, p1: string, t2: string, p2: string)
    requires t1 + p1 == t2 + p2
    ensures VerifyWebhookSignature(c, hmac, signature, t1, p1) == VerifyWebhookSignature(c, hmac, signature, t2, p2)
  {
  }

  /** A signature that is not 44 characters long, like the test suite's "mock_signature", never verifies. */
  lemma WrongLengthRejected(c: CashfreeClient, hmac: HmacSha256, signature: string, timestamp: string, payload: string)
    requires |signature| != 44
    ensures !VerifyWebhookSignature(c, hmac, signature, timestamp, payload)
    ensures !VerifyWebhookSignature(c, hmac, "mock_signature", timestamp, payload)
  {
  }
}
