/**
 * The per-request session record and its dirty-tracking fingerprint.
 *
 * A session is its identifier, its cookie, and the application data: the
 * enumerable properties the handler sets, in insertion order. `hash(sess)`
 * serialises the record with JSON.stringify, leaving out the top-level
 * `cookie` property, and digests the text with SHA-1; the model idealises the
 * digest as the serialised entries themselves, so equal fingerprints mean
 * equal data.
 */
module SessionData {
  import opened Wrappers
  import opened Values

  datatype Json =
    | JNull
    | JBool(b: bool)
    | JNum(n: int)
    | JStr(s: string)
    | JArray(items: seq<Json>)
    | JObject(members: seq<(string, Json)>)

  /** One enumerable property of the session object. */
  type Entry = (string, Json)

  /** The `secure` cookie option: a fixed flag or "auto" (follow the transport). */
  datatype SecureSetting = SecureFixed(on: bool) | SecureAuto

  /** The `cookie` option of session(): the attributes the coordinator consults. */
  datatype CookieOptions = CookieOptions(path: Option<string>, secure: SecureSetting, maxAge: Option<int>)

  /**
   * The session's cookie: its path, whether it is secure, its absolute expiry
   * (None for a browser-session cookie) and the max-age it was created with.
   */
  datatype CookieData = CookieData(path: string, secure: bool, expires: Option<int>, originalMaxAge: Option<int>)

  datatype Session = Session(id: Values.JsVal, cookie: CookieData, data: seq<Entry>)

  /** The dirty-tracking fingerprint. */
  type Digest = seq<Entry>

  /** The entries JSON.stringify keeps once its replacer drops the top-level `cookie` key. */
  function WithoutCookie(data: seq<Entry>): (r: seq<Entry>)
    ensures |r| <= |data|
  {
    if data == [] then []
    else (if data[0].0 == "cookie" then [] else [data[0]]) + WithoutCookie(data[1..])
  }

  /** The fingerprint holds exactly the entries whose key is not `cookie`. */
  lemma {:induction false} WithoutCookieMembers(data: seq<Entry>, e: Entry)
    ensures e in WithoutCookie(data) <==> e in data && e.0 != "cookie"
  {
    if data != [] {
      WithoutCookieMembers(data[1..], e);
      assert data == [data[0]] + data[1..];
    }
  }

  /** `hash(sess)`. */
  function Hash(s: Session): Digest {
    WithoutCookie(s.data)
  }

  lemma {:induction false} WithoutCookieAppend(a: seq<Entry>, b: seq<Entry>)
    ensures WithoutCookie(a + b) == WithoutCookie(a) + WithoutCookie(b)
  {
    if a == [] {
      assert a + b == b;
    } else {
      assert (a + b)[0] == a[0];
      assert (a + b)[1..] == a[1..] + b;
      WithoutCookieAppend(a[1..], b);
    }
  }

  /** Changing the cookie, or the value under a top-level `cookie` key, leaves the fingerprint alone. */
  lemma {:induction false} HashIgnoresCookie(s: Session, c: CookieData, before: seq<Entry>, after: seq<Entry>, v: Json)
    requires s.data == before + after
    ensures Hash(s.(cookie := c)) == Hash(s)
    ensures Hash(s.(data := before + [("cookie", v)] + after)) == Hash(s)
  {
    var marked: seq<Entry> := [("cookie", v)];
    assert WithoutCookie(marked) == [] by {
      assert marked[1..] == [];
    }
    calc {
      WithoutCookie(before + marked + after);
      { WithoutCookieAppend(before + marked, after); }
      WithoutCookie(before + marked) + WithoutCookie(after);
      { WithoutCookieAppend(before, marked); }
      WithoutCookie(before) + WithoutCookie(after);
      { WithoutCookieAppend(before, after); }
      WithoutCookie(before + after);
    }
  }

  /**
   * The fingerprint follows the serialisation order: the same properties set in
   * a different order count as a change.
   */
  lemma HashSeesInsertionOrder(s: Session)
    requires s.data == [("a", JNum(1)), ("b", JNum(2))]
    ensures Hash(s.(data := [("b", JNum(2)), ("a", JNum(1))])) != Hash(s)
  {
    assert Hash(s)[0] == ("a", JNum(1));
  }

  /**
   * A new Cookie built from the `cookie` option at time `now`: path "/" unless
   * given, an expiry `maxAge` after now when a max-age is configured.
   */
  function NewCookie(options: CookieOptions, now: int, secure: bool): (c: CookieData)
    ensures c.expires.Some? <==> options.maxAge.Some?
    ensures options.maxAge.Some? ==> c.expires.value == now + options.maxAge.value
    ensures options.path.Some? && options.path.value != "" ==> c.path == options.path.value
    ensures options.path.None? || options.path.value == "" ==> c.path == "/"
    ensures c.secure == secure && c.originalMaxAge == options.maxAge
  {
    CookieData(
      if options.path.Some? && options.path.value != "" then options.path.value else "/",
      secure,
      if options.maxAge.Some? then Some(now + options.maxAge.value) else None,
      options.maxAge)
  }

  /**
   * `session.touch()`: reset the max-age to the original one, which moves the
   * expiry to `originalMaxAge` after now (or clears it when there is none).
   */
  function TouchCookie(c: CookieData, now: int): (t: CookieData)
    ensures t.expires.Some? <==> c.originalMaxAge.Some?
    ensures c.originalMaxAge.Some? ==> t.expires.value == now + c.originalMaxAge.value
    ensures t.path == c.path && t.secure == c.secure && t.originalMaxAge == c.originalMaxAge
  {
    c.(expires := if c.originalMaxAge.Some? then Some(now + c.originalMaxAge.value) else None)
  }

  function TouchSession(s: Session, now: int): (t: Session)
    ensures Hash(t) == Hash(s) && t.id == s.id
  {
    s.(cookie := TouchCookie(s.cookie, now))
  }
}
