/**
 * Reading the session identifier from a request (`getcookie`,
 * `unsigncookie`) and the signed value written back (`setcookie`'s
 * `'s:' + sign(id, secrets[0])`). Several secrets may be configured so that
 * the signing secret can be rotated: any of them may verify, only the first
 * one signs.
 */
module CookieId {
  import opened Wrappers
  import opened Values
  import opened Signature

  /** The marker that prefixes a signed cookie value. */
  const SignedPrefix := "s:"

  /** The cookie value setcookie emits for identifier `id`. */
  function SignedCookieValue(id: string, secret: string, mac: Mac): string {
    SignedPrefix + Sign(id, secret, mac)
  }

  /** The payload from the first secret, in list order, that verifies `val`; None if none does. */
  function FirstUnsigned(val: string, secrets: seq<string>, mac: Mac): Option<string>
    decreases |secrets|
  {
    if secrets == [] then None
    else if Unsign(val, secrets[0], mac).Some? then Unsign(val, secrets[0], mac)
    else FirstUnsigned(val, secrets[1..], mac)
  }

  /** `unsigncookie(val, secrets)` (index.js:700-710): None stands for its `false`. */
  method UnsignCookie(val: string, secrets: seq<string>, mac: Mac) returns (r: Option<string>)
    ensures r == FirstUnsigned(val, secrets, mac)
  {
    var i := 0;
    while i < |secrets|
      invariant 0 <= i <= |secrets|
      invariant FirstUnsigned(val, secrets, mac) == FirstUnsigned(val, secrets[i..], mac)
    {
      var result := Unsign(val, secrets[i], mac);
      if result.Some? {
        return result;
      }
      assert secrets[i..][1..] == secrets[i + 1..];
      i := i + 1;
    }
    return None;
  }

  /** When unsigncookie succeeds, the secret that won is the first verifying one, and it signed the value. */
  lemma {:induction false} FirstUnsignedWitness(val: string, secrets: seq<string>, mac: Mac) returns (i: nat)
    requires FirstUnsigned(val, secrets, mac).Some?
    ensures i < |secrets|
    ensures Unsign(val, secrets[i], mac) == FirstUnsigned(val, secrets, mac)
    ensures Sign(FirstUnsigned(val, secrets, mac).value, secrets[i], mac) == val
    ensures forall j :: 0 <= j < i ==> Unsign(val, secrets[j], mac).None?
  {
    if Unsign(val, secrets[0], mac).Some? {
      i := 0;
    } else {
      var k := FirstUnsignedWitness(val, secrets[1..], mac);
      i := k + 1;
      assert forall j :: 1 <= j < i ==> secrets[j] == secrets[1..][j - 1];
    }
  }

  /** unsigncookie fails exactly when every secret fails. */
  lemma {:induction false} FirstUnsignedNone(val: string, secrets: seq<string>, mac: Mac)
    ensures FirstUnsigned(val, secrets, mac).None? <==>
      forall j :: 0 <= j < |secrets| ==> Unsign(val, secrets[j], mac).None?
  {
    if secrets != [] {
      FirstUnsignedNone(val, secrets[1..], mac);
      assert forall j :: 1 <= j < |secrets| ==> secrets[j] == secrets[1..][j - 1];
    }
  }

  /**
   * Secret rotation: a value signed with any secret in the list reads back as
   * the identifier that was signed, wherever that secret stands in the list.
   */
  lemma {:induction false} RotationAccepts(id: string, signer: string, secrets: seq<string>, mac: Mac)
    requires signer in secrets
    ensures FirstUnsigned(Sign(id, signer, mac), secrets, mac) == Some(id)
  {
    var signed := Sign(id, signer, mac);
    if Unsign(signed, secrets[0], mac).Some? {
      UnsignPayload(id, signer, secrets[0], mac);
    } else {
      if secrets[0] == signer {
        UnsignSign(id, signer, mac);
      }
      RotationAccepts(id, signer, secrets[1..], mac);
    }
  }

  /**
   * Where getcookie can find the cookie: the parsed Cookie header (when the
   * header is non-empty), and the `signedCookies` and `cookies` objects an
   * earlier cookie-parser may have left on the request.
   */
  datatype CookieSources = CookieSources(
    header: Option<map<string, string>>,
    signedCookies: Option<map<string, JsVal>>,
    cookies: Option<map<string, string>>)

  function Lookup(m: map<string, string>, name: string): Option<string> {
    if name in m then Some(m[name]) else None
  }

  function LookupValue(m: map<string, JsVal>, name: string): JsVal {
    if name in m then m[name] else Undefined
  }

  /**
   * What getcookie assigns for one raw cookie value: nothing when it is missing,
   * empty or unsigned; the payload when a secret verifies it; undefined otherwise.
   */
  function SignedCandidate(raw: Option<string>, secrets: seq<string>, mac: Mac): seq<JsVal> {
    if raw.None? || raw.value == "" || raw.value[..if |raw.value| < 2 then |raw.value| else 2] != SignedPrefix then []
    else
      match FirstUnsigned(raw.value[2..], secrets, mac)
      case Some(v) => [Str(v)]
      case None => [Undefined]
  }

  /** The values getcookie would take, source by source, in the order it consults them. */
  function Offered(src: CookieSources, name: string, secrets: seq<string>, mac: Mac): seq<JsVal> {
    (if src.header.Some? then SignedCandidate(Lookup(src.header.value, name), secrets, mac) else [])
    + (if src.signedCookies.Some? then [LookupValue(src.signedCookies.value, name)] else [])
    + (if src.cookies.Some? then SignedCandidate(Lookup(src.cookies.value, name), secrets, mac) else [])
  }

  /**
   * Each source is consulted only while no truthy value is held, so the result
   * is the first truthy value offered, else the last one offered, else undefined.
   */
  function FirstTruthyOrLast(vs: seq<JsVal>): (r: JsVal)
    ensures r == Undefined || r in vs
    ensures Truthy(r) <==> exists k :: 0 <= k < |vs| && Truthy(vs[k])
  {
    if vs == [] then Undefined
    else if Truthy(vs[0]) || |vs| == 1 then vs[0]
    else
      var r := FirstTruthyOrLast(vs[1..]);
      assert forall k :: 1 <= k < |vs| ==> vs[k] == vs[1..][k - 1];
      r
  }

  /** The identifier a request carries, as getcookie computes it. */
  function Resolve(src: CookieSources, name: string, secrets: seq<string>, mac: Mac): JsVal {
    FirstTruthyOrLast(Offered(src, name, secrets, mac))
  }

  /** Consulting more sources only matters while no truthy value is held. */
  lemma {:induction false} FirstTruthyOrLastAppend(vs: seq<JsVal>, ws: seq<JsVal>)
    ensures FirstTruthyOrLast(vs + ws) ==
      if ws == [] || Truthy(FirstTruthyOrLast(vs)) then FirstTruthyOrLast(vs) else FirstTruthyOrLast(ws)
  {
    if vs == [] {
      assert vs + ws == ws;
    } else if ws == [] {
      assert vs + ws == vs;
    } else {
      assert (vs + ws)[0] == vs[0];
      if !Truthy(vs[0]) {
        if |vs| == 1 {
          assert (vs + ws)[1..] == ws;
        } else {
          assert (vs + ws)[1..] == vs[1..] + ws;
          FirstTruthyOrLastAppend(vs[1..], ws);
        }
      }
    }
  }

  /** One fallback step of getcookie: read a raw value and, if it is signed, verify it. */
  method ReadSigned(raw: Option<string>, secrets: seq<string>, mac: Mac, val: JsVal) returns (r: JsVal)
    ensures r == if SignedCandidate(raw, secrets, mac) == [] then val else SignedCandidate(raw, secrets, mac)[0]
  {
    r := val;
    if raw.Some? && raw.value != "" {
      var s := raw.value;
      if s[..if |s| < 2 then |s| else 2] == SignedPrefix {
        var unsigned := UnsignCookie(s[2..], secrets, mac);
        if unsigned.Some? {
          r := Str(unsigned.value);
        } else {
          r := Undefined;
        }
      }
    }
  }

  /** `getcookie(req, name, secrets)` (index.js:542-605). */
  method GetCookie(src: CookieSources, name: string, secrets: seq<string>, mac: Mac) returns (val: JsVal)
    ensures val == Resolve(src, name, secrets, mac)
  {
    val := Undefined;
    if src.header.Some? {
      val := ReadSigned(Lookup(src.header.value, name), secrets, mac, val);
    }
    ghost var h := if src.header.Some? then SignedCandidate(Lookup(src.header.value, name), secrets, mac) else [];
    assert val == FirstTruthyOrLast(h);
    if !Truthy(val) && src.signedCookies.Some? {
      val := LookupValue(src.signedCookies.value, name);
    }
    ghost var s := if src.signedCookies.Some? then [LookupValue(src.signedCookies.value, name)] else [];
    FirstTruthyOrLastAppend(h, s);
    assert val == FirstTruthyOrLast(h + s);
    if !Truthy(val) && src.cookies.Some? {
      val := ReadSigned(Lookup(src.cookies.value, name), secrets, mac, val);
    }
    ghost var c := if src.cookies.Some? then SignedCandidate(Lookup(src.cookies.value, name), secrets, mac) else [];
    FirstTruthyOrLastAppend(h + s, c);
  }

  /**
   * The cookie setcookie issues (signed with the first secret) identifies the
   * same session on a later request whose secret list still holds that secret.
   */
  lemma {:induction false} IssuedCookieResolves(
    id: string, signer: string, src: CookieSources, name: string, secrets: seq<string>, mac: Mac)
    requires id != "" && signer in secrets
    requires src.header.Some? && Lookup(src.header.value, name) == Some(SignedCookieValue(id, signer, mac))
    ensures Resolve(src, name, secrets, mac) == Str(id)
  {
    var raw := SignedCookieValue(id, signer, mac);
    assert raw[..2] == SignedPrefix && raw[2..] == Sign(id, signer, mac);
    RotationAccepts(id, signer, secrets, mac);
    var h := SignedCandidate(Lookup(src.header.value, name), secrets, mac);
    assert h == [Str(id)];
    var offered := Offered(src, name, secrets, mac);
    FirstTruthyOrLastAppend(h, offered[1..]);
    assert offered == h + offered[1..];
  }

  /**
   * A bad signature is never reported as `false`: the only way getcookie
   * yields `false` is that cookie-parser's signedCookies held it.
   */
  lemma {:induction false} NeverFalse(src: CookieSources, name: string, secrets: seq<string>, mac: Mac)
    requires src.signedCookies.Some? ==> LookupValue(src.signedCookies.value, name) != False
    ensures Resolve(src, name, secrets, mac) != False
  {
    var offered := Offered(src, name, secrets, mac);
    assert False !in offered;
  }

  /**
   * When the header is the only source, a cookie whose signature no secret
   * verifies, or which lacks the `s:` marker, counts as no cookie at all.
   */
  lemma {:induction false} UnverifiedIsAbsent(src: CookieSources, name: string, secrets: seq<string>, mac: Mac)
    requires src.signedCookies.None? && src.cookies.None? && src.header.Some?
    requires name in src.header.value
    requires var raw := src.header.value[name];
      |raw| < 2 || raw[..2] != SignedPrefix ||
      forall j :: 0 <= j < |secrets| ==> Unsign(raw[2..], secrets[j], mac).None?
    ensures Resolve(src, name, secrets, mac) == Undefined
  {
    var raw := src.header.value[name];
    if |raw| >= 2 && raw[..2] == SignedPrefix {
      FirstUnsignedNone(raw[2..], secrets, mac);
    }
  }
}
