/**
 * The middleware returned by session(): the store-readiness flag and the
 * request gates, then, per request, the closure that generates or loads the
 * session, tracks whether it changed, emits the Set-Cookie header when the
 * response headers go out, and takes over `res.end` so that the store call
 * completes before the response is finished.
 */
module Middleware {
  import opened Wrappers
  import opened Values
  import opened Signature
  import opened SessionData
  import opened Options
  import opened CookieId
  import opened Transport
  import opened Decision

  /** What the gates read from an incoming request. */
  datatype Arrival = Arrival(
    hasSession: bool,
    pathname: Option<string>,
    reqSecret: Option<string>)

  /** What the gates decide: call next() untouched, fail the request, or handle its session. */
  datatype Admission = PassThrough | MissingSecret | Engage(secrets: seq<string>)

  predicate StartsWith(s: string, prefix: string) {
    |prefix| <= |s| && s[..|prefix|] == prefix
  }

  /**
   * The path gate: `(pathname || '/').indexOf(path || '/') === 0`, which holds
   * exactly when the request path starts with the cookie path.
   */
  predicate PathInScope(pathname: Option<string>, cookiePath: Option<string>) {
    StartsWith(OrElse(pathname, "/"), OrElse(cookiePath, "/"))
  }

  /** The middleware instance: its configuration and the store's readiness. */
  class SessionMiddleware {
    const config: Config
    var storeReady: bool

    constructor (config: Config)
      requires WellFormed(config)
      ensures this.config == config
      ensures storeReady
    {
      this.config := config;
      storeReady := true;
    }

    /** The store's `disconnect` event. */
    method Disconnect()
      modifies this`storeReady
      ensures !storeReady
    {
      storeReady := false;
    }

    /** The store's `connect` event. */
    method Connect()
      modifies this`storeReady
      ensures storeReady
    {
      storeReady := true;
    }

    /** The gates at the start of every request (index.js:184-216). */
    method Admit(a: Arrival) returns (g: Admission)
      requires WellFormed(config)
      ensures a.hasSession || !storeReady || !PathInScope(a.pathname, config.cookie.path) ==> g == PassThrough
      ensures g == MissingSecret <==>
        !a.hasSession && storeReady && PathInScope(a.pathname, config.cookie.path)
        && config.secrets.None? && OrElse(a.reqSecret, "") == ""
      ensures g.Engage? <==>
        !a.hasSession && storeReady && PathInScope(a.pathname, config.cookie.path)
        && (config.secrets.Some? || OrElse(a.reqSecret, "") != "")
      ensures g.Engage? ==> |g.secrets| > 0
      ensures g.Engage? && config.secrets.Some? ==> g.secrets == config.secrets.value
      ensures g.Engage? && config.secrets.None? ==> g.secrets == [a.reqSecret.value]
    {
      if a.hasSession {
        return PassThrough;
      }
      if !storeReady {
        return PassThrough;
      }
      var originalPath := OrElse(a.pathname, "/");
      if !StartsWith(originalPath, OrElse(config.cookie.path, "/")) {
        return PassThrough;
      }
      if config.secrets.None? && OrElse(a.reqSecret, "") == "" {
        return MissingSecret;
      }
      g := Engage(if config.secrets.Some? then config.secrets.value else [a.reqSecret.value]);
    }
  }

  /** A call the closure makes on the store, in order. */
  datatype StoreCall =
    | StoreGet(id: JsVal)
    | StoreSet(id: JsVal, record: Session)
    | StoreTouch(id: JsVal, record: Session)
    | StoreDestroy(id: JsVal)

  /** An error handed to next(err). */
  datatype Failure = LoadFailed(code: string) | StoreFailed(op: Outcome)

  /** A call of the request's continuation: next() or next(err). */
  datatype NextCall = Proceed | Fail(failure: Failure)

  /** What store.get reports: an error with its code, no record, or a record. */
  datatype LoadResult = LoadError(code: string) | NotFound | Found(record: Session)

  const NotFoundCode := "ENOENT"

  /** One Set-Cookie line: one set by other code, as text, or the session cookie. */
  datatype HeaderLine = Text(text: string) | SessionCookie(name: string, value: string, cookie: CookieData)

  /** `res.getHeader('Set-Cookie')`: absent, a single value, or a list. */
  datatype HeaderValue = NoHeader | Single(line: HeaderLine) | Lines(lines: seq<HeaderLine>)

  /** `res.getHeader('Set-Cookie') || []` as a list (an empty text is falsy). */
  function PriorLines(h: HeaderValue): seq<HeaderLine> {
    match h
    case NoHeader => []
    case Single(l) => if l == Text("") then [] else [l]
    case Lines(ls) => ls
  }

  /** The Set-Cookie list setcookie writes: the earlier lines, in order, then the new one. */
  function AppendSetCookie(prev: HeaderValue, line: HeaderLine): (r: seq<HeaderLine>)
    ensures |r| == |PriorLines(prev)| + 1
    ensures r[..|r| - 1] == PriorLines(prev) && r[|r| - 1] == line
  {
    PriorLines(prev) + [line]
  }

  /** What `res.end` returns: a boolean, or the response itself (what the real end returns). */
  datatype EndReturn = Returned(b: bool) | ResponseObject

  /** The Set-Cookie header and the parts of the session the header listener may change. */
  datatype HeaderState = HeaderState(setCookie: HeaderValue, session: Option<Session>, touched: bool)

  function Bytes(chunk: Option<seq<byte>>): seq<byte> {
    if chunk.Some? then chunk.value else []
  }

  /** The session after the closure's once-per-request touch. */
  function AfterTouch(session: Option<Session>, touched: bool, now: int): (s: Option<Session>)
    ensures s.Some? <==> session.Some?
    ensures s.Some? ==> s.value.id == session.value.id && Hash(s.value) == Hash(session.value)
  {
    if session.Some? && !touched then Some(TouchSession(session.value, now)) else session
  }

  /** The store call the end proxy makes for an outcome. */
  function StoreCallsFor(o: Outcome, sessionID: JsVal, s: Option<Session>): seq<StoreCall> {
    match o
    case DestroyRecord => [StoreDestroy(sessionID)]
    case SaveRecord => if s.Some? then [StoreSet(s.value.id, s.value)] else []
    case TouchRecord => if s.Some? then [StoreTouch(sessionID, s.value)] else []
    case _ => []
  }

  /**
   * What the header listener (index.js:230-257) leaves behind when req.session
   * is `s` and the closure's `touched` flag is `wasTouched`: nothing changes
   * without a session, when the cookie decision is negative, or when a secure
   * cookie would go over an insecure connection; otherwise the session is
   * touched (once) and its signed cookie is appended to Set-Cookie.
   */
  function HookEffect(p: Policy, t: Tracking, sessionID: JsVal, secureRequest: bool, name: string, signer: string,
                      mac: Mac, now: int, prior: HeaderValue, s: Option<Session>, wasTouched: bool): (h: HeaderState)
    ensures s.None? || wasTouched ==> h.session == s && h.touched == wasTouched
  {
    if s.None? || !ShouldSetCookie(p, t, sessionID, s.value) || (s.value.cookie.secure && !secureRequest)
    then HeaderState(prior, s, wasTouched)
    else
      var touchedSession := if wasTouched then s.value else TouchSession(s.value, now);
      HeaderState(
        Lines(AppendSetCookie(prior, SessionCookie(name, SignedCookieValue(sessionID.s, signer, mac), touchedSession.cookie))),
        Some(touchedSession), true)
  }

  /**
   * The header listener's promise: the session cookie, signed with `signer`,
   * is appended after the earlier Set-Cookie lines exactly when there is a
   * session, shouldSetCookie holds, and the cookie is not secure or the
   * request is; the session is then touched, once, before its cookie is
   * written, and keeps its identifier and data. Otherwise nothing changes.
   */
  lemma HeaderListenerEffect(p: Policy, t: Tracking, sessionID: JsVal, secureRequest: bool, name: string, signer: string,
                             mac: Mac, now: int, prior: HeaderValue, s: Option<Session>, wasTouched: bool)
    ensures var h := HookEffect(p, t, sessionID, secureRequest, name, signer, mac, now, prior, s, wasTouched);
      var emits := s.Some? && ShouldSetCookie(p, t, sessionID, s.value) && (!s.value.cookie.secure || secureRequest);
      && (!emits ==> h == HeaderState(prior, s, wasTouched))
      && (emits ==>
            && h.touched && h.session.Some?
            && h.session.value.id == s.value.id && h.session.value.data == s.value.data
            && h.session.value.cookie == (if wasTouched then s.value.cookie else TouchCookie(s.value.cookie, now))
            && h.setCookie == Lines(PriorLines(prior) + [SessionCookie(name, SignedCookieValue(sessionID.s, signer, mac), h.session.value.cookie)]))
  {
  }

  /** Bytes added after a prefix, plus those still held back, are the chunk that was to follow it. */
  lemma DeliveredSuffix(before: seq<byte>, body: seq<byte>, held: seq<byte>, chunk: seq<byte>)
    requires before <= body && body + held == before + chunk
    ensures |before| <= |body| && body[|before|..] + held == chunk
  {
    var added := body[|before|..];
    assert body == before + added;
    assert before + (added + held) == before + chunk;
    assert (before + (added + held))[|before|..] == added + held;
    assert (before + chunk)[|before|..] == chunk;
  }

  /**
   * One request passing through the middleware: the closure's variables, the
   * request's session fields, the response as the closure sees it, and the
   * calls made on the store and on next().
   */
  class Exchange {
    // Settings the closure reads.
    const policy: Policy
    const resave: bool
    const cookieOptions: CookieOptions
    const name: string
    const secrets: seq<string>
    const signer: string
    const mac: Mac
    const touchCapable: bool
    /** `issecure(req, trustProxy)`: fixed for the request, so evaluated once. */
    const secureRequest: bool
    const now: int
    const cookieId: JsVal

    // The request.
    var sessionID: JsVal
    var session: Option<Session>
    /** Whether req.session's save and reload are the closure's wrappers. */
    var wrapped: bool
    /** Whether store.get has been called and has not yet called back. */
    var loading: bool
    var nextCalls: seq<NextCall>

    // The closure's dirty tracking.
    var originalId: JsVal
    var originalHash: Option<Digest>
    var savedHash: Option<Digest>
    var touched: bool

    // The end proxy's variables.
    var ended: bool
    var sync: bool
    var chunk: Option<seq<byte>>
    var ret: EndReturn
    /** Whether the store call started by end has not yet called back. */
    var pending: bool
    var awaiting: Outcome

    // The response.
    var contentLength: Option<int>
    var headersSent: bool
    var setCookie: HeaderValue
    var body: seq<byte>
    var endCalls: nat

    var storeLog: seq<StoreCall>

    /** The chunk given to the first end call, and how much body preceded it. */
    ghost var finalChunk: seq<byte>
    ghost var bodyAtEnd: nat

    /**
     * Body bytes go out only after the headers, the real end runs once and only
     * once the store call (if any) has called back, and what the proxy has
     * passed on, plus what it still holds back, is the chunk end was given.
     */
    ghost predicate Valid()
      reads this`body, this`headersSent, this`ended, this`endCalls, this`pending, this`bodyAtEnd,
        this`finalChunk, this`sync, this`chunk
    {
      && (body != [] ==> headersSent)
      && (!ended ==> endCalls == 0 && !pending)
      && (pending ==> ended && endCalls == 0)
      && (ended && !pending ==> endCalls == 1)
      && (ended ==> bodyAtEnd <= |body| && body[bodyAtEnd..] + (if pending then Rest() else []) == finalChunk)
    }

    /** The bytes the end proxy still holds for the real end. */
    function Rest(): seq<byte>
      reads this`sync, this`chunk
    {
      if sync then Bytes(chunk) else []
    }

    function TrackingState(): Tracking
      reads this`originalId, this`originalHash, this`savedHash
    {
      Tracking(cookieId, originalId, originalHash, savedHash)
    }

    /** The session as it is after the closure's once-per-request touch. */
    function TouchedSession(): (s: Option<Session>)
      reads this`session, this`touched
    {
      AfterTouch(session, touched, now)
    }

    function HeaderView(): HeaderState
      reads this`setCookie, this`session, this`touched
    {
      HeaderState(setCookie, session, touched)
    }

    /** The header state once the header listener has run on the current state. */
    function HookResult(): HeaderState
      reads this`setCookie, this`sessionID, this`originalId, this`originalHash, this`savedHash,
        this`session, this`touched
    {
      HookEffect(policy, TrackingState(), sessionID, secureRequest, name, signer, mac, now, setCookie, session, touched)
    }

    /** What the end proxy will do with the store, judged on the state when it is called. */
    function Finalising(): Outcome
      reads this`sessionID, this`originalId, this`originalHash, this`savedHash, this`session, this`touched
    {
      Finalisation(policy, touchCapable, TrackingState(), sessionID, TouchedSession())
    }

    /** The store call that outcome makes. */
    function FinalStoreCalls(): seq<StoreCall>
      reads this`sessionID, this`originalId, this`originalHash, this`savedHash, this`session, this`touched
    {
      StoreCallsFor(Finalising(), sessionID, TouchedSession())
    }

    /**
     * The Set-Cookie value the header listener makes of `prior` when the
     * tracking state is `t`, the identifier `id` and req.session the touched `s`.
     */
    function CookieHeaderFor(t: Tracking, id: JsVal, s: Option<Session>, prior: HeaderValue): HeaderValue {
      HookEffect(policy, t, id, secureRequest, name, signer, mac, now, prior, s, true).setCookie
    }

    function SecureFlag(): bool {
      if cookieOptions.secure.SecureAuto? then secureRequest else cookieOptions.secure.on
    }

    /**
     * The start of a request that passed the gates with `secrets`: read the
     * identifier from the cookie, then either generate a session with
     * `freshId` (no identifier) or ask the store for the record.
     */
    constructor (config: Config, secrets: seq<string>, touchCapable: bool, mac: Mac,
                 src: CookieSources, facts: SecurityFacts, now: int, freshId: string,
                 existingSetCookie: HeaderValue)
      requires |secrets| > 0
      ensures Valid()
      ensures cookieId == Resolve(src, config.name, secrets, mac)
      ensures signer == secrets[0] && name == config.name && secureRequest == IsSecure(facts, config.proxy)
      ensures resave == config.resave && cookieOptions == config.cookie && this.secrets == secrets
      ensures this.mac == mac && this.touchCapable == touchCapable && this.now == now
      ensures policy == Policy(config.saveUninitialized, config.rolling, config.unsetDestroy)
      ensures !Truthy(cookieId) ==>
        && sessionID == Str(freshId) && session.Some? && session.value.id == Str(freshId)
        && session.value.cookie == NewCookie(cookieOptions, now, SecureFlag())
        && Hash(session.value) == [] && !IsModified(TrackingState(), session.value) && wrapped
        && nextCalls == [Proceed] && storeLog == [] && !loading
      ensures Truthy(cookieId) ==>
        sessionID == cookieId && session.None? && loading && nextCalls == [] && storeLog == [StoreGet(cookieId)]
      ensures savedHash.None? && !touched && !ended && !headersSent && body == []
      ensures setCookie == existingSetCookie
    {
      policy := Policy(config.saveUninitialized, config.rolling, config.unsetDestroy);
      resave := config.resave;
      cookieOptions := config.cookie;
      name := config.name;
      this.secrets := secrets;
      signer := secrets[0];
      this.mac := mac;
      this.touchCapable := touchCapable;
      secureRequest := IsSecure(facts, config.proxy);
      this.now := now;
      var id := GetCookie(src, config.name, secrets, mac);
      cookieId := id;
      sessionID := id;
      session := None;
      wrapped := false;
      loading := false;
      nextCalls := [];
      originalId := Undefined;
      originalHash := None;
      savedHash := None;
      touched := false;
      ended := false;
      sync := true;
      chunk := None;
      ret := Returned(true);
      pending := false;
      awaiting := NoStoreCall;
      contentLength := None;
      headersSent := false;
      setCookie := existingSetCookie;
      body := [];
      endCalls := 0;
      storeLog := [];
      finalChunk := [];
      bodyAtEnd := 0;
      new;
      assert Valid();
      Start(freshId);
    }

    /**
     * Without an identifier, generate a session and call next (index.js:489-494);
     * with one, ask the store for its record (index.js:496-520).
     */
    method Start(freshId: string)
      requires sessionID == cookieId && session.None? && nextCalls == [] && storeLog == [] && !loading
      modifies this`sessionID, this`session, this`originalId, this`originalHash, this`wrapped,
               this`nextCalls, this`storeLog, this`loading
      ensures !Truthy(cookieId) ==>
        && sessionID == Str(freshId) && session.Some? && session.value.id == Str(freshId)
        && session.value.cookie == NewCookie(cookieOptions, now, SecureFlag())
        && Hash(session.value) == [] && !IsModified(TrackingState(), session.value) && wrapped
        && nextCalls == [Proceed] && storeLog == [] && !loading
      ensures Truthy(cookieId) ==>
        sessionID == cookieId && session.None? && loading && nextCalls == [] && storeLog == [StoreGet(cookieId)]
    {
      if !Truthy(sessionID) {
        Generate(freshId);
        nextCalls := [Proceed];
      } else {
        storeLog := [StoreGet(sessionID)];
        loading := true;
      }
    }

    /** The closure's generate(): store.generate then capture identifier and fingerprint (index.js:159-168, 372-378). */
    method Generate(freshId: string)
      modifies this`sessionID, this`session, this`originalId, this`originalHash, this`wrapped
      ensures sessionID == Str(freshId)
      ensures session == Some(Session(Str(freshId), NewCookie(cookieOptions, now, SecureFlag()), []))
      ensures originalId == Str(freshId) && originalHash == Some([]) && wrapped
    {
      sessionID := Str(freshId);
      session := Some(Session(sessionID, NewCookie(cookieOptions, now, SecureFlag()), []));
      originalId := sessionID;
      originalHash := Some(Hash(session.value));
      wrapped := true;
    }

    /**
     * The closure's inflate(): the loaded record becomes req.session under the
     * request's identifier; its fingerprint is the original one, and also the
     * saved one when resave is off (index.js:381-394).
     */
    method Inflate(record: Session)
      modifies this`session, this`originalId, this`originalHash, this`savedHash, this`wrapped
      ensures session == Some(Session(sessionID, record.cookie, record.data))
      ensures originalId == sessionID && originalHash == Some(Hash(record))
      ensures savedHash == if resave then old(savedHash) else Some(Hash(record))
      ensures wrapped
      ensures !IsModified(TrackingState(), session.value)
    {
      session := Some(Session(sessionID, record.cookie, record.data));
      originalId := sessionID;
      originalHash := Some(Hash(record));
      if !resave {
        savedHash := originalHash;
      }
      wrapped := true;
    }

    /**
     * The store.get callback (index.js:498-520): an error other than
     * "not found" goes to next(err); otherwise a record is inflated and a miss
     * generates a new session with `freshId`, then next() is called.
     */
    method OnLoad(result: LoadResult, freshId: string)
      requires loading
      modifies this`loading, this`nextCalls, this`sessionID, this`session, this`originalId,
               this`originalHash, this`savedHash, this`wrapped
      ensures !loading
      ensures result.LoadError? && result.code != NotFoundCode ==>
        && nextCalls == old(nextCalls) + [Fail(LoadFailed(result.code))] && session == old(session)
        && sessionID == old(sessionID) && TrackingState() == old(TrackingState()) && wrapped == old(wrapped)
      ensures (result.LoadError? && result.code == NotFoundCode) || result.NotFound? ==>
        && nextCalls == old(nextCalls) + [Proceed] && sessionID == Str(freshId)
        && session.Some? && session.value.id == sessionID && session.value.data == [] && wrapped
        && !IsModified(TrackingState(), session.value)
      ensures result.Found? ==>
        && nextCalls == old(nextCalls) + [Proceed] && sessionID == old(sessionID)
        && session == Some(Session(sessionID, result.record.cookie, result.record.data))
        && !IsModified(TrackingState(), session.value) && wrapped
        && (!resave ==> IsSaved(TrackingState(), session.value))
    {
      loading := false;
      if result.LoadError? && result.code != NotFoundCode {
        nextCalls := nextCalls + [Fail(LoadFailed(result.code))];
        return;
      }
      if result.Found? {
        Inflate(result.record);
      } else {
        Generate(freshId);
      }
      nextCalls := nextCalls + [Proceed];
    }

    /** The handler changes the session's application data (`req.session.x = …`, `delete …`). */
    method Assign(data: seq<Entry>)
      requires session.Some?
      modifies this`session
      ensures session == Some(old(session).value.(data := data))
      ensures IsModified(TrackingState(), session.value) <==>
        originalId != session.value.id || originalHash != Some(WithoutCookie(data))
    {
      session := Some(session.value.(data := data));
    }

    /** The handler sets `req.session = null`. */
    method Unset()
      modifies this`session
      ensures session.None?
    {
      session := None;
    }

    /**
     * `req.session.save()`: through the closure's wrapper, the fingerprint of
     * what is being saved is recorded first (index.js:410-414); then the
     * record is written under the session's own identifier.
     */
    method Save()
      requires session.Some?
      modifies this`savedHash, this`storeLog
      ensures storeLog == old(storeLog) + [StoreSet(session.value.id, session.value)]
      ensures savedHash == if wrapped then Some(Hash(session.value)) else old(savedHash)
      ensures wrapped && originalId == session.value.id ==> IsSaved(TrackingState(), session.value)
      ensures wrapped && originalId == session.value.id && (policy.saveUninitialized || cookieId == sessionID) ==>
        !ShouldSave(policy, TrackingState(), sessionID, session.value)
    {
      if wrapped {
        savedHash := Some(Hash(session.value));
      }
      storeLog := storeLog + [StoreSet(session.value.id, session.value)];
    }

    /**
     * `req.session.reload(cb)`: the record is fetched again and, when found,
     * replaces req.session; the wrapper re-wraps whatever req.session now is,
     * so dirty tracking keeps its original and saved fingerprints (index.js:402-408).
     * Returns whether the reload succeeded.
     */
    method Reload(result: LoadResult) returns (ok: bool)
      requires session.Some?
      modifies this`session, this`storeLog
      ensures storeLog == old(storeLog) + [StoreGet(old(session).value.id)]
      ensures ok <==> result.Found?
      ensures ok ==> session == Some(Session(sessionID, result.record.cookie, result.record.data))
      ensures !ok ==> session == old(session)
      ensures TrackingState() == old(TrackingState()) && wrapped == old(wrapped)
    {
      storeLog := storeLog + [StoreGet(session.value.id)];
      ok := result.Found?;
      if ok {
        session := Some(Session(sessionID, result.record.cookie, result.record.data));
      }
    }

    /**
     * `req.session.regenerate(cb)`: the old record is destroyed and store.generate
     * (index.js:159-168) installs a new, unwrapped session under `freshId`;
     * the closure's tracking still describes the original session.
     */
    method Regenerate(freshId: string)
      modifies this`sessionID, this`session, this`wrapped, this`storeLog
      ensures storeLog == old(storeLog) + [StoreDestroy(old(sessionID))]
      ensures sessionID == Str(freshId) && !wrapped
      ensures session == Some(Session(Str(freshId), NewCookie(cookieOptions, now, SecureFlag()), []))
      ensures originalId != Str(freshId) ==> IsModified(TrackingState(), session.value)
    {
      storeLog := storeLog + [StoreDestroy(sessionID)];
      sessionID := Str(freshId);
      session := Some(Session(sessionID, NewCookie(cookieOptions, now, SecureFlag()), []));
      wrapped := false;
    }

    /** The handler writes body bytes before ending the response (`res.write` is not proxied). */
    method Write(bytes: seq<byte>)
      requires Valid() && !ended
      modifies this`headersSent, this`setCookie, this`session, this`touched, this`body
      ensures Valid()
      ensures body == old(body) + bytes && headersSent
      ensures HeaderView() == if old(headersSent) then old(HeaderView()) else old(HookResult())
    {
      UnderlyingWrite(bytes);
    }

    /** setcookie (index.js:680-690): append the signed session cookie to Set-Cookie. */
    method SetCookieHeader(id: string, cookie: CookieData)
      modifies this`setCookie
      ensures setCookie == Lines(AppendSetCookie(old(setCookie), SessionCookie(name, SignedCookieValue(id, signer, mac), cookie)))
    {
      var signed := SignedCookieValue(id, signer, mac);
      var prev := PriorLines(setCookie);
      setCookie := Lines(prev + [SessionCookie(name, signed, cookie)]);
    }

    /** The header listener registered with onHeaders (index.js:230-257). */
    method EmitHeaders()
      requires !headersSent
      modifies this`headersSent, this`setCookie, this`session, this`touched
      ensures headersSent
      ensures HeaderView() == old(HookResult())
    {
      headersSent := true;
      if session.None? {
        return;
      }
      if !ShouldSetCookie(policy, TrackingState(), sessionID, session.value) {
        return;
      }
      if session.value.cookie.secure && !secureRequest {
        return;
      }
      if !touched {
        session := Some(TouchSession(session.value, now));
        touched := true;
      }
      SetCookieHeader(sessionID.s, session.value.cookie);
    }

    /** The response's own write: the headers go out first. */
    method UnderlyingWrite(bytes: seq<byte>)
      modifies this`headersSent, this`setCookie, this`session, this`touched, this`body
      ensures body == old(body) + bytes && headersSent
      ensures HeaderView() == if old(headersSent) then old(HeaderView()) else old(HookResult())
    {
      if !headersSent {
        EmitHeaders();
      }
      body := body + bytes;
    }

    /** The response's own end: the headers go out first. */
    method UnderlyingEnd(bytes: seq<byte>)
      modifies this`headersSent, this`setCookie, this`session, this`touched, this`body, this`endCalls
      ensures body == old(body) + bytes && headersSent && endCalls == old(endCalls) + 1
      ensures HeaderView() == if old(headersSent) then old(HeaderView()) else old(HookResult())
    {
      if !headersSent {
        EmitHeaders();
      }
      body := body + bytes;
      endCalls := endCalls + 1;
    }

    /** writeend (index.js:273-281): the real end, with the held chunk if writetop has not run. */
    method WriteEnd()
      modifies this`headersSent, this`setCookie, this`session, this`touched, this`body, this`endCalls,
               this`ret, this`sync
      ensures body == old(body) + old(Rest()) && endCalls == old(endCalls) + 1 && !sync && headersSent
      ensures ret == if old(sync) then ResponseObject else old(ret)
      ensures HeaderView() == if old(headersSent) then old(HeaderView()) else old(HookResult())
    {
      if sync {
        UnderlyingEnd(Bytes(chunk));
        ret := ResponseObject;
        sync := false;
        return;
      }
      UnderlyingEnd([]);
    }

    /** Whether writetop holds back the chunk's last byte: a declared positive length and a non-empty chunk. */
    predicate SplitsChunk()
      reads this`sync, this`chunk, this`contentLength
    {
      sync && chunk.Some? && contentLength.Some? && contentLength.value > 0 && |chunk.value| > 0
    }

    /**
     * writetop (index.js:283-314): pass the chunk on while the store call is in
     * flight, holding back its last byte when Content-Length is positive so that
     * the real end still has something to send.
     */
    method WriteTop(writeOk: bool) returns (r: EndReturn)
      modifies this`headersSent, this`setCookie, this`session, this`touched, this`body,
               this`ret, this`sync, this`chunk
      ensures body + Rest() == old(body) + old(Rest()) && old(body) <= body
      ensures !old(sync) ==> r == old(ret) && body == old(body) && !sync && HeaderView() == old(HeaderView())
      ensures old(sync) && old(chunk).None? ==> r == Returned(true) && sync && body == old(body)
      ensures old(sync) && old(chunk).Some? ==> r == Returned(writeOk)
      ensures old(SplitsChunk()) ==> sync && chunk == Some([old(chunk).value[|old(chunk).value| - 1]])
      ensures old(sync) && old(chunk).Some? && !old(SplitsChunk()) ==> body == old(body) + old(chunk).value && !sync
      ensures headersSent == (old(headersSent) || (old(sync) && old(chunk).Some?))
      ensures HeaderView() == if old(headersSent) || !headersSent then old(HeaderView()) else old(HookResult())
    {
      if !sync {
        return ret;
      }
      if chunk.None? {
        ret := Returned(true);
        return ret;
      }
      var c := chunk.value;
      if contentLength.Some? && contentLength.value > 0 {
        if |c| != 0 {
          UnderlyingWrite(c[..|c| - 1]);
          ret := Returned(writeOk);
          chunk := Some(c[|c| - 1..]);
          assert c[..|c| - 1] + c[|c| - 1..] == c;
          assert c[|c| - 1..] == [c[|c| - 1]];
          return ret;
        }
      }
      UnderlyingWrite(c);
      ret := Returned(writeOk);
      sync := false;
      return ret;
    }

    /** A store callback of the end proxy: forward an error to next, then writeend. */
    method Complete(fails: bool, op: Outcome)
      modifies this`nextCalls, this`headersSent, this`setCookie, this`session, this`touched, this`body,
               this`endCalls, this`ret, this`sync
      ensures nextCalls == old(nextCalls) + if fails then [Fail(StoreFailed(op))] else []
      ensures body == old(body) + old(Rest()) && endCalls == old(endCalls) + 1 && !sync && headersSent
      ensures ret == if old(sync) then ResponseObject else old(ret)
      ensures HeaderView() == if old(headersSent) then old(HeaderView()) else old(HookResult())
    {
      if fails {
        nextCalls := nextCalls + [Fail(StoreFailed(op))];
      }
      WriteEnd();
    }

    /** Whether the outcome starts a store call whose callback finishes the response. */
    static predicate CallsStore(o: Outcome) {
      o == DestroyRecord || o == SaveRecord || o == TouchRecord
    }

    /**
     * The tail of the end proxy once a store call has started: the callback
     * either runs at once (`callbackNow`) or later through StoreCallback; the
     * proxy returns what writetop returns.
     */
    method AwaitStore(op: Outcome, writeOk: bool, callbackNow: bool, fails: bool) returns (r: EndReturn)
      requires sync && !pending
      modifies this`nextCalls, this`headersSent, this`setCookie, this`session, this`touched, this`body,
               this`endCalls, this`ret, this`sync, this`chunk, this`pending, this`awaiting
      ensures pending == !callbackNow
      ensures callbackNow ==> r == ResponseObject && body == old(body) + old(Rest()) && endCalls == old(endCalls) + 1
      ensures callbackNow ==> nextCalls == old(nextCalls) + if fails then [Fail(StoreFailed(op))] else []
      ensures callbackNow ==> headersSent && HeaderView() == if old(headersSent) then old(HeaderView()) else old(HookResult())
      ensures !callbackNow ==> body + Rest() == old(body) + old(Rest()) && old(body) <= body && endCalls == old(endCalls)
      ensures !callbackNow ==> nextCalls == old(nextCalls) && awaiting == op
      ensures !callbackNow ==> r == if old(chunk).None? then Returned(true) else Returned(writeOk)
      ensures !callbackNow ==> headersSent == (old(headersSent) || old(chunk).Some?)
      ensures !callbackNow ==>
        HeaderView() == if old(headersSent) || !headersSent then old(HeaderView()) else old(HookResult())
    {
      if callbackNow {
        Complete(fails, op);
        r := WriteTop(writeOk);
      } else {
        pending := true;
        awaiting := op;
        r := WriteTop(writeOk);
      }
    }

    /**
     * The proxied `res.end(chunk)` (index.js:263-369). A second call returns
     * false and does nothing. The first one makes the store call the
     * finalisation order picks (touching the session on the way), and the real
     * end runs exactly once: at once when there is no store call or its
     * callback runs at once, otherwise when StoreCallback reports the callback.
     * Every byte of the chunk reaches the body, in order, by the real end, and
     * the header listener, if the headers go out now, sees the state the end
     * proxy leaves.
     */
    method End(chunk0: Option<seq<byte>>, writeOk: bool, callbackNow: bool, fails: bool) returns (r: EndReturn)
      requires Valid()
      modifies this`session, this`touched, this`savedHash, this`storeLog, this`nextCalls, this`headersSent,
               this`setCookie, this`body, this`endCalls, this`ret, this`sync, this`chunk, this`pending,
               this`awaiting, this`ended, this`finalChunk, this`bodyAtEnd
      ensures Valid()
      ensures old(ended) ==> r == Returned(false) && unchanged(this)
      ensures !old(ended) ==> ended && finalChunk == Bytes(chunk0) && old(body) <= body && bodyAtEnd == |old(body)|
      ensures !old(ended) ==> storeLog == old(storeLog) + old(FinalStoreCalls())
      ensures !old(ended) ==>
        savedHash == if old(Finalising()) == SaveRecord && wrapped && session.Some? then Some(Hash(session.value)) else old(savedHash)
      ensures !old(ended) ==> (pending ==> awaiting == old(Finalising()))
      ensures !old(ended) ==> session == old(TouchedSession())
      ensures !old(ended) ==> (pending <==> CallsStore(old(Finalising())) && !callbackNow)
      ensures !old(ended) && !pending ==> endCalls == 1 && body == old(body) + Bytes(chunk0)
      ensures !old(ended) ==>
        nextCalls == old(nextCalls) + if callbackNow && fails && CallsStore(old(Finalising())) then [Fail(StoreFailed(old(Finalising())))] else []
      ensures !old(ended) && (!CallsStore(old(Finalising())) || callbackNow) ==> r == ResponseObject
      ensures !old(ended) && CallsStore(old(Finalising())) && !callbackNow ==>
        r == if chunk0.None? then Returned(true) else Returned(writeOk)
      ensures !old(ended) ==> headersSent == (old(headersSent) || !pending || chunk0.Some?)
      ensures !old(ended) ==>
        setCookie == if old(headersSent) || !headersSent then old(setCookie) else CookieHeaderFor(TrackingState(), sessionID, session, old(setCookie))
    {
      if ended {
        return Returned(false);
      }
      r := EndFirst(chunk0, writeOk, callbackNow, fails);
    }

    /** The first call of the end proxy: the store side, then the response side. */
    method EndFirst(chunk0: Option<seq<byte>>, writeOk: bool, callbackNow: bool, fails: bool) returns (r: EndReturn)
      requires Valid() && !ended
      modifies this`session, this`touched, this`savedHash, this`storeLog, this`nextCalls, this`headersSent,
               this`setCookie, this`body, this`endCalls, this`ret, this`sync, this`chunk, this`pending,
               this`awaiting, this`ended, this`finalChunk, this`bodyAtEnd
      ensures Valid()
      ensures ended && finalChunk == Bytes(chunk0) && old(body) <= body && bodyAtEnd == |old(body)|
      ensures storeLog == old(storeLog) + old(FinalStoreCalls())
      ensures savedHash == if old(Finalising()) == SaveRecord && wrapped && session.Some? then Some(Hash(session.value)) else old(savedHash)
      ensures pending ==> awaiting == old(Finalising())
      ensures session == old(TouchedSession())
      ensures pending <==> CallsStore(old(Finalising())) && !callbackNow
      ensures !pending ==> endCalls == 1 && body == old(body) + Bytes(chunk0)
      ensures nextCalls == old(nextCalls) + if callbackNow && fails && CallsStore(old(Finalising())) then [Fail(StoreFailed(old(Finalising())))] else []
      ensures !CallsStore(old(Finalising())) || callbackNow ==> r == ResponseObject
      ensures CallsStore(old(Finalising())) && !callbackNow ==> r == if chunk0.None? then Returned(true) else Returned(writeOk)
      ensures headersSent == (old(headersSent) || !pending || chunk0.Some?)
      ensures setCookie == if old(headersSent) || !headersSent then old(setCookie) else CookieHeaderFor(TrackingState(), sessionID, session, old(setCookie))
    {
      var op := Commit();
      r := Deliver(op, chunk0, writeOk, callbackNow, fails);
    }

    /**
     * The store side of the end proxy (index.js:316-368): destroy the record,
     * or touch req.session once and then save it or touch it in the store, as
     * the finalisation order decides on the state end was called in. Returns
     * the outcome taken.
     */
    method Commit() returns (op: Outcome)
      modifies this`session, this`touched, this`savedHash, this`storeLog
      ensures op == old(Finalising())
      ensures session == old(TouchedSession()) && touched == (old(touched) || session.Some?)
      ensures storeLog == old(storeLog) + old(FinalStoreCalls())
      ensures savedHash == if op == SaveRecord && wrapped then Some(Hash(session.value)) else old(savedHash)
    {
      if ShouldDestroy(policy, sessionID, session) {
        storeLog := storeLog + [StoreDestroy(sessionID)];
        return DestroyRecord;
      }
      if session.None? {
        return NoSession;
      }
      if !touched {
        session := Some(TouchSession(session.value, now));
        touched := true;
      }
      if ShouldSave(policy, TrackingState(), sessionID, session.value) {
        Save();
        op := SaveRecord;
      } else if touchCapable && ShouldTouch(policy, TrackingState(), sessionID, session.value) {
        storeLog := storeLog + [StoreTouch(sessionID, session.value)];
        op := TouchRecord;
      } else {
        op := NoStoreCall;
      }
    }

    /**
     * The response side of the end proxy once the store call for `op` has
     * started: respond, and record the chunk and the body that preceded it.
     */
    method Deliver(op: Outcome, chunk0: Option<seq<byte>>, writeOk: bool, callbackNow: bool, fails: bool)
        returns (r: EndReturn)
      requires Valid() && !ended && (session.Some? ==> touched)
      modifies this`nextCalls, this`headersSent, this`setCookie, this`session, this`touched, this`body,
               this`endCalls, this`ret, this`sync, this`chunk, this`pending, this`awaiting, this`ended,
               this`finalChunk, this`bodyAtEnd
      ensures Valid() && ended && finalChunk == Bytes(chunk0)
      ensures old(body) <= body && bodyAtEnd == |old(body)|
      ensures session == old(session) && touched == old(touched) && TrackingState() == old(TrackingState())
      ensures pending ==> awaiting == op
      ensures pending <==> CallsStore(op) && !callbackNow
      ensures !pending ==> endCalls == 1 && body == old(body) + Bytes(chunk0)
      ensures nextCalls == old(nextCalls) + if callbackNow && fails && CallsStore(op) then [Fail(StoreFailed(op))] else []
      ensures !CallsStore(op) || callbackNow ==> r == ResponseObject
      ensures CallsStore(op) && !callbackNow ==> r == if chunk0.None? then Returned(true) else Returned(writeOk)
      ensures headersSent == (old(headersSent) || !pending || chunk0.Some?)
      ensures setCookie == if old(headersSent) || !headersSent then old(setCookie) else old(CookieHeaderFor(TrackingState(), sessionID, session, setCookie))
    {
      ghost var before := body;
      r := Respond(op, chunk0, writeOk, callbackNow, fails);
      Account(before, chunk0);
    }

    /** Record the chunk end was given and how much body preceded it. */
    ghost method Account(before: seq<byte>, chunk0: Option<seq<byte>>)
      requires ended && (body != [] ==> headersSent)
      requires pending ==> endCalls == 0 && body + Rest() == before + Bytes(chunk0) && before <= body
      requires !pending ==> endCalls == 1 && body == before + Bytes(chunk0)
      modifies this`finalChunk, this`bodyAtEnd
      ensures Valid() && finalChunk == Bytes(chunk0) && bodyAtEnd == |before|
    {
      finalChunk := Bytes(chunk0);
      bodyAtEnd := |before|;
      if pending {
        DeliveredSuffix(before, body, Rest(), finalChunk);
      } else {
        DeliveredSuffix(before, body, [], finalChunk);
      }
    }

    /**
     * Mark the response ended and hold `chunk0`; then wait for the callback of
     * the store call for `op` (writetop meanwhile), or end at once when there
     * is none.
     */
    method Respond(op: Outcome, chunk0: Option<seq<byte>>, writeOk: bool, callbackNow: bool, fails: bool)
        returns (r: EndReturn)
      requires !ended && !pending && endCalls == 0 && (body != [] ==> headersSent) && (session.Some? ==> touched)
      modifies this`nextCalls, this`headersSent, this`setCookie, this`session, this`touched, this`body,
               this`endCalls, this`ret, this`sync, this`chunk, this`pending, this`awaiting, this`ended
      ensures ended && session == old(session) && touched == old(touched)
      ensures body != [] ==> headersSent
      ensures pending <==> CallsStore(op) && !callbackNow
      ensures !pending ==> endCalls == 1 && body == old(body) + Bytes(chunk0)
      ensures pending ==> endCalls == 0 && body + Rest() == old(body) + Bytes(chunk0) && old(body) <= body
      ensures pending ==> awaiting == op
      ensures nextCalls == old(nextCalls) + if callbackNow && fails && CallsStore(op) then [Fail(StoreFailed(op))] else []
      ensures !CallsStore(op) || callbackNow ==> r == ResponseObject
      ensures CallsStore(op) && !callbackNow ==> r == if chunk0.None? then Returned(true) else Returned(writeOk)
      ensures headersSent == (old(headersSent) || !pending || chunk0.Some?)
      ensures setCookie == if old(headersSent) || !headersSent then old(setCookie) else old(CookieHeaderFor(TrackingState(), sessionID, session, setCookie))
    {
      assert HookResult().setCookie == CookieHeaderFor(TrackingState(), sessionID, session, setCookie);
      ended := true;
      sync := true;
      chunk := chunk0;
      if CallsStore(op) {
        r := AwaitStore(op, writeOk, callbackNow, fails);
      } else {
        UnderlyingEnd(Rest());
        r := ResponseObject;
      }
    }

    /**
     * The callback of the store call end started: an error goes to next, and
     * the real end sends what writetop held back.
     */
    method StoreCallback(fails: bool)
      requires Valid() && pending
      modifies this`nextCalls, this`headersSent, this`setCookie, this`session, this`touched, this`body,
               this`endCalls, this`ret, this`sync, this`pending
      ensures Valid() && !pending && endCalls == 1
      ensures body == old(body) + old(Rest())
      ensures body[bodyAtEnd..] == finalChunk
      ensures nextCalls == old(nextCalls) + if fails then [Fail(StoreFailed(awaiting))] else []
      ensures HeaderView() == if old(headersSent) then old(HeaderView()) else old(HookResult())
    {
      Complete(fails, awaiting);
      pending := false;
    }

    /** `req.session.destroy(cb)`: req.session is removed and the record is destroyed. */
    method DestroySession()
      requires session.Some?
      modifies this`session, this`storeLog
      ensures session.None?
      ensures storeLog == old(storeLog) + [StoreDestroy(old(session).value.id)]
      ensures Finalising() == if Truthy(sessionID) && policy.unsetDestroy then DestroyRecord else NoSession
    {
      storeLog := storeLog + [StoreDestroy(session.value.id)];
      session := None;
    }

    /** The handler declares the response's Content-Length (None: absent or not a number). */
    method SetContentLength(n: Option<int>)
      requires !headersSent
      modifies this`contentLength
      ensures contentLength == n
    {
      contentLength := n;
    }

    /** The handler sets Set-Cookie itself before the headers go out. */
    method SetHeaderCookies(h: HeaderValue)
      requires !headersSent
      modifies this`setCookie
      ensures setCookie == h
      ensures HookResult().setCookie == h || PriorLines(h) <= HookResult().setCookie.lines
    {
      setCookie := h;
    }
  }
}
