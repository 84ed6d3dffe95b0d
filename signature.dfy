/** Webhook signing and credential generation (lib/utils/signature.ts).
    HMAC-SHA256 (RFC 2104 with SHA-256) is not computed here: it is passed
    in as a function from (key, message) to its 64-character lower-case hex
    digest. Random bytes are passed in as byte sequences. */
module Signature {
  import opened Strings

  predicate IsLowerHex(c: char)
  {
    '0' <= c <= '9' || 'a' <= c <= 'f'
  }

  predicate IsHexString(s: string)
  {
    forall i :: 0 <= i < |s| ==> IsLowerHex(s[i])
  }

  /** A hex-encoded SHA-256 digest: 64 lower-case hex characters. */
  type Digest = s: string | |s| == 64 && IsHexString(s)
    witness seq(64, i => '0')

  /** The keyed digest function: `createHmac("sha256", key).update(msg).digest("hex")`. */
  type Hmac = (string, string) -> Digest

  const SignaturePrefix: string := "sha256="

  /** The string that is signed: the timestamp, a dot, then the payload. */
  function SignedPayload(payload: string, timestamp: string): string
  {
    timestamp + "." + payload
  }

  /** `generateWebhookSignature(payload, secret, timestamp)`. */
  function GenerateWebhookSignature(payload: string, secret: string, timestamp: string, hmac: Hmac): (sig: string)
    ensures |sig| == 71 && sig[..7] == SignaturePrefix && IsHexString(sig[7..])
    ensures sig[7..] == hmac(secret, SignedPayload(payload, timestamp))
  {
    SignaturePrefix + hmac(secret, SignedPayload(payload, timestamp))
  }

  /** `verifyWebhookSignature`: recompute and compare as plain strings. */
  function VerifyWebhookSignature(payload: string, signature: string, secret: string, timestamp: string, hmac: Hmac): bool
  {
    GenerateWebhookSignature(payload, secret, timestamp, hmac) == signature
  }

  /** A signature produced for (payload, secret, timestamp) verifies against
      the same triple; any other signature string is rejected. */
  lemma SignatureRoundTrip(payload: string, secret: string, timestamp: string, signature: string, hmac: Hmac)
    ensures VerifyWebhookSignature(payload, GenerateWebhookSignature(payload, secret, timestamp, hmac), secret, timestamp, hmac)
    ensures signature != GenerateWebhookSignature(payload, secret, timestamp, hmac) ==>
              !VerifyWebhookSignature(payload, signature, secret, timestamp, hmac)
  {
  }

  predicate AllDigits(s: string)
  {
    forall i :: 0 <= i < |s| ==> IsDigit(s[i])
  }

  /** The framing is unambiguous for decimal timestamps: the signed string
      determines both the timestamp and the payload, so a signature bound to
      one timestamp is bound to one payload. */
  lemma {:induction false} FramingUnambiguous(ts1: string, payload1: string, ts2: string, payload2: string)
    requires AllDigits(ts1) && AllDigits(ts2)
    requires SignedPayload(payload1, ts1) == SignedPayload(payload2, ts2)
    ensures ts1 == ts2 && payload1 == payload2
  {
    var m := SignedPayload(payload1, ts1);
    assert m[|ts1|] == '.' && m[|ts2|] == '.';
    if |ts1| != |ts2| {
      assert false;
    }
    assert ts1 == m[..|ts1|] == ts2;
    assert payload1 == m[|ts1| + 1..] == payload2;
  }

  // ---------------------------------------------------------------------
  // Hex encoding of random bytes (`Buffer.toString("hex")`)

  function HexChar(d: nat): (c: char)
    requires d < 16
    ensures IsLowerHex(c)
  {
    "0123456789abcdef"[d]
  }

  function HexValue(c: char): (v: nat)
    ensures v < 16
  {
    if '0' <= c <= '9' then c as int - '0' as int
    else if 'a' <= c <= 'f' then c as int - 'a' as int + 10
    else 0
  }

  lemma HexCharValue(d: nat)
    requires d < 16
    ensures HexValue(HexChar(d)) == d
  {
  }

  function HexEncode(bytes: seq<bv8>): (r: string)
    ensures |r| == 2 * |bytes|
    ensures IsHexString(r)
  {
    if bytes == [] then ""
    else [HexChar(bytes[0] as nat / 16), HexChar(bytes[0] as nat % 16)] + HexEncode(bytes[1..])
  }

  /** Decodes pairs of hex digits back to bytes. */
  function HexDecode(s: string): seq<bv8>
    decreases |s|
  {
    if |s| < 2 then []
    else
      [(HexValue(s[0]) * 16 + HexValue(s[1])) as bv8] + HexDecode(s[2..])
  }

  /** The two hex digits of a byte decode to the byte. */
  lemma ByteHexValue(b: bv8)
    ensures (HexValue(HexChar(b as nat / 16)) * 16 + HexValue(HexChar(b as nat % 16))) as bv8 == b
  {
    var n := b as nat;
    HexCharValue(n / 16);
    HexCharValue(n % 16);
    assert (n / 16) * 16 + n % 16 == n;
  }

  /** Hex encoding loses nothing: decoding it gives the bytes back. */
  lemma {:induction false} HexRoundTrip(bytes: seq<bv8>)
    ensures HexDecode(HexEncode(bytes)) == bytes
  {
    if bytes != [] {
      var e := HexEncode(bytes);
      ByteHexValue(bytes[0]);
      assert e[2..] == HexEncode(bytes[1..]);
      HexRoundTrip(bytes[1..]);
    }
  }

  // ---------------------------------------------------------------------
  // Credentials

  const ApiKeyInfix: string := "_sk_live_"
  const WebhookSecretPrefix: string := "whsec_"

  /** `generateApiKey(prefix)` with the 24 random bytes given. The key is
      the prefix, "_sk_live_", then 48 lower-case hex characters that encode
      exactly the random bytes. */
  function GenerateApiKey(prefix: string, random: seq<bv8>): (key: string)
    requires |random| == 24
    ensures |key| == |prefix| + 9 + 48
    ensures key[..|prefix|] == prefix && key[|prefix|..|prefix| + 9] == ApiKeyInfix
    ensures IsHexString(key[|prefix| + 9..]) && HexDecode(key[|prefix| + 9..]) == random
  {
    HexRoundTrip(random);
    var key := prefix + ApiKeyInfix + HexEncode(random);
    assert key[|prefix| + 9..] == HexEncode(random);
    key
  }

  /** `generateWebhookSecret()` with the 24 random bytes given: "whsec_"
      then 48 lower-case hex characters that encode the bytes. */
  function GenerateWebhookSecret(random: seq<bv8>): (secret: string)
    requires |random| == 24
    ensures |secret| == 54 && secret[..6] == WebhookSecretPrefix
    ensures IsHexString(secret[6..]) && HexDecode(secret[6..]) == random
  {
    HexRoundTrip(random);
    var secret := WebhookSecretPrefix + HexEncode(random);
    assert secret[6..] == HexEncode(random);
    secret
  }
}
