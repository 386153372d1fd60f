/**
  `verifySignature` of the root dispatcher: the `X-Hub-Signature-256`
  check. The HMAC-SHA256 computation is the parameter `mac`; its bytes are
  rendered in lower-case hex and prefixed with `sha256=`, and the header is
  compared with that digest byte for byte, after a length check, on the
  UTF-8 encodings of both strings.
*/
module Signature {
  import opened JsValues
  import opened Encoding

  /** HMAC-SHA256 keyed by the first argument over the UTF-8 bytes of the second. */
  type Mac = (string, string) -> seq<byte>

  const Scheme: string := "sha256="

  /** The header value a sender holding `secret` attaches to `payload`. */
  function ExpectedSignature(mac: Mac, secret: string, payload: string): (d: string)
    ensures IsAscii(d)
  {
    Scheme + Hex(mac(secret, payload))
  }

  /**
    With no secret every request passes; with one, the header must be
    present and equal to the expected digest. Unequal byte lengths are
    rejected before the contents are compared.
  */
  function VerifySignature(mac: Mac, secret: string, payload: string, signature: Option<string>): (ok: bool)
    ensures secret == "" ==> ok
    ensures secret != "" && !Truthy(signature) ==> !ok
    ensures secret != "" ==> (ok <==> signature == Some(ExpectedSignature(mac, secret, payload)))
    ensures secret != "" && signature.Some? ==>
              |Utf8(signature.value)| != |Utf8(ExpectedSignature(mac, secret, payload))| ==> !ok
  {
    if secret == "" then
      true
    else if !Truthy(signature) then
      false
    else
      var digest := ExpectedSignature(mac, secret, payload);
      var sigBuf := Utf8(signature.value);
      var digBuf := Utf8(digest);
      if |sigBuf| != |digBuf| then
        false
      else
        Utf8AsciiInjective(signature.value, digest);
        sigBuf == digBuf
  }

  /** A header computed with the shared secret is accepted; changing it in any way is not. */
  lemma SignatureRoundTrip(mac: Mac, secret: string, payload: string, header: string)
    requires secret != ""
    ensures VerifySignature(mac, secret, payload, Some(ExpectedSignature(mac, secret, payload)))
    ensures header != ExpectedSignature(mac, secret, payload) ==> !VerifySignature(mac, secret, payload, Some(header))
  {
  }
}
