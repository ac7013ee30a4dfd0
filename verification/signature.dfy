/**
 * The signed-cookie codec the middleware relies on (the cookie-signature
 * package): a value is signed as `value + "." + tag`, and unsigning takes the
 * text before the last '.', signs it again and compares.
 *
 * The keyed digest itself (HMAC-SHA256 in unpadded base64) is not modelled:
 * it is a parameter `mac`, and the only fact used about it is that its output,
 * being base64, never contains a '.'.
 */
module Signature {
  import opened Wrappers

  /** A keyed digest whose output contains no '.'. */
  type Mac = f: (string, string) -> string | forall v, s :: '.' !in f(v, s)
    witness (v: string, s: string) => ""

  /** `s.lastIndexOf(c)`: the last position holding `c`, or -1. */
  function LastIndexOf(s: string, c: char): (r: int)
    ensures -1 <= r < |s|
    ensures r == -1 <==> c !in s
    ensures 0 <= r ==> s[r] == c && c !in s[r + 1..]
  {
    if s == [] then -1
    else if s[|s| - 1] == c then |s| - 1
    else
      var r := LastIndexOf(s[..|s| - 1], c);
      assert s == s[..|s| - 1] + [s[|s| - 1]];
      assert 0 <= r ==> s[r + 1..] == s[..|s| - 1][r + 1..] + [s[|s| - 1]];
      r
  }

  /** `signature.sign(value, secret)`. */
  function Sign(value: string, secret: string, mac: Mac): string {
    value + "." + mac(value, secret)
  }

  /**
   * `signature.unsign(input, secret)`: the payload when the signature verifies,
   * None where the library returns `false`. (Without any '.', the library
   * compares against a re-signed prefix that must contain a '.', so it fails too.)
   */
  function Unsign(input: string, secret: string, mac: Mac): (r: Option<string>)
    ensures r.Some? ==> Sign(r.value, secret, mac) == input
    ensures r.Some? ==> r.value == input[..LastIndexOf(input, '.')]
  {
    var i := LastIndexOf(input, '.');
    if i < 0 then None
    else
      var payload := input[..i];
      if Sign(payload, secret, mac) == input then Some(payload) else None
  }

  /** Every signed value carries exactly one tag separator: the one after the payload. */
  lemma {:induction false} SignedSeparator(value: string, secret: string, mac: Mac)
    ensures LastIndexOf(Sign(value, secret, mac), '.') == |value|
  {
    var signed := Sign(value, secret, mac);
    assert signed[|value|] == '.';
  }

  /** Round trip: what is signed with a secret unsigns with that secret to the same value. */
  lemma {:induction false} UnsignSign(value: string, secret: string, mac: Mac)
    ensures Unsign(Sign(value, secret, mac), secret, mac) == Some(value)
  {
    SignedSeparator(value, secret, mac);
    assert Sign(value, secret, mac)[..|value|] == value;
  }

  /**
   * Whatever secret verifies a signed value, the payload it yields is the one
   * that was signed: a secret list never turns a cookie into another identifier.
   */
  lemma {:induction false} UnsignPayload(value: string, signer: string, verifier: string, mac: Mac)
    requires Unsign(Sign(value, signer, mac), verifier, mac).Some?
    ensures Unsign(Sign(value, signer, mac), verifier, mac) == Some(value)
  {
    SignedSeparator(value, signer, mac);
    assert Sign(value, signer, mac)[..|value|] == value;
  }
}
