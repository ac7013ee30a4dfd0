/**
 * The persistence decision taken when a response ends: the predicates the
 * middleware closure defines over its dirty-tracking state and the request,
 * and the order in which `res.end` consults them.
 */
module Decision {
  import opened Wrappers
  import opened Values
  import opened SessionData

  /** The options the decision reads. */
  datatype Policy = Policy(saveUninitialized: bool, rolling: bool, unsetDestroy: bool)

  /**
   * The closure's dirty-tracking state: the identifier read from the cookie,
   * and the identifier and fingerprint captured when the session was generated
   * or loaded, plus the fingerprint of the last explicit save (None while
   * undefined).
   */
  datatype Tracking = Tracking(
    cookieId: JsVal,
    originalId: JsVal,
    originalHash: Option<Digest>,
    savedHash: Option<Digest>)

  /** `isModified(sess)`: another session object, or other data, than at generate/load time. */
  predicate IsModified(t: Tracking, sess: Session) {
    t.originalId != sess.id || t.originalHash != Some(Hash(sess))
  }

  /** `isSaved(sess)`: the same session object, with the data last saved explicitly. */
  predicate IsSaved(t: Tracking, sess: Session) {
    t.originalId == sess.id && t.savedHash == Some(Hash(sess))
  }

  /** `shouldDestroy(req)`: an identifier, unset "destroy", and the handler cleared req.session. */
  predicate ShouldDestroy(p: Policy, sessionID: JsVal, session: Option<Session>) {
    Truthy(sessionID) && p.unsetDestroy && session.None?
  }

  /** `shouldSave(req)` (index.js:449-459): the decision the request model uses. */
  predicate ShouldSave(p: Policy, t: Tracking, sessionID: JsVal, sess: Session) {
    sessionID.Str? &&
    if !p.saveUninitialized && t.cookieId != sessionID then IsModified(t, sess) else !IsSaved(t, sess)
  }

  /**
   * `shouldSave(req)` with the "no explicit save yet" guard the code lacks:
   * the uninitialised-session rule only applies while the handler has not
   * saved the session itself. A reference for what index.js:456 evidently
   * intends; the request model keeps the code's decision.
   */
  predicate GuardedShouldSave(p: Policy, t: Tracking, sessionID: JsVal, sess: Session) {
    sessionID.Str? &&
    if !p.saveUninitialized && t.savedHash.None? && t.cookieId != sessionID then IsModified(t, sess)
    else !IsSaved(t, sess)
  }

  /** `shouldTouch(req)`: the identifier came with the request and nothing is to be saved. */
  predicate ShouldTouch(p: Policy, t: Tracking, sessionID: JsVal, sess: Session) {
    sessionID.Str? && t.cookieId == sessionID && !ShouldSave(p, t, sessionID, sess)
  }

  /** `shouldSetCookie(req)`. */
  predicate ShouldSetCookie(p: Policy, t: Tracking, sessionID: JsVal, sess: Session) {
    sessionID.Str? &&
    if t.cookieId != sessionID then p.saveUninitialized || IsModified(t, sess)
    else p.rolling || (sess.cookie.expires.Some? && IsModified(t, sess))
  }

  /** The store operation `res.end` starts, if any. */
  datatype Outcome = DestroyRecord | NoSession | SaveRecord | TouchRecord | NoStoreCall

  /** The order in which `res.end` consults the predicates (index.js:316-368). */
  function Finalisation(p: Policy, touchCapable: bool, t: Tracking, sessionID: JsVal, session: Option<Session>): Outcome
  {
    if ShouldDestroy(p, sessionID, session) then DestroyRecord
    else if session.None? then NoSession
    else if ShouldSave(p, t, sessionID, session.value) then SaveRecord
    else if touchCapable && ShouldTouch(p, t, sessionID, session.value) then TouchRecord
    else NoStoreCall
  }

  /**
   * A touch only refreshes a record the store already holds: the identifier
   * came with the request, the session is the one loaded, and its data is the
   * data last saved.
   */
  lemma TouchOnlyForStoredData(p: Policy, touchCapable: bool, t: Tracking, sessionID: JsVal, session: Option<Session>)
    requires Finalisation(p, touchCapable, t, sessionID, session) == TouchRecord
    ensures touchCapable && session.Some? && sessionID.Str? && sessionID == t.cookieId
    ensures IsSaved(t, session.value) && t.savedHash == Some(Hash(session.value))
  {
  }

  /**
   * A session whose identifier came with the request always reaches the
   * store: it is saved unless the store already holds exactly its data, and
   * otherwise touched when the store can be.
   */
  lemma ReturningSessionReachesStore(p: Policy, touchCapable: bool, t: Tracking, sessionID: JsVal, session: Option<Session>)
    requires sessionID.Str? && t.cookieId == sessionID && session.Some?
    ensures Finalisation(p, touchCapable, t, sessionID, session) == SaveRecord <==> !IsSaved(t, session.value)
    ensures Finalisation(p, touchCapable, t, sessionID, session) == TouchRecord <==> IsSaved(t, session.value) && touchCapable
    ensures Finalisation(p, touchCapable, t, sessionID, session) == NoStoreCall <==> IsSaved(t, session.value) && !touchCapable
  {
  }

  /** A destroyed session is neither saved nor touched, and no session is never saved either. */
  lemma DestroyExcludesSaveAndTouch(p: Policy, touchCapable: bool, t: Tracking, sessionID: JsVal, session: Option<Session>)
    requires ShouldDestroy(p, sessionID, session) || session.None?
    ensures Finalisation(p, touchCapable, t, sessionID, session) !in {SaveRecord, TouchRecord}
  {
  }

  /**
   * A new session's cookie follows its storage: a session stored at the end of
   * the request always gets its cookie, and when uninitialised sessions are
   * not saved, the cookie goes out exactly for a session that is stored.
   */
  lemma NewSessionCookieFollowsSave(p: Policy, t: Tracking, sessionID: JsVal, sess: Session)
    requires sessionID.Str? && t.cookieId != sessionID
    ensures ShouldSave(p, t, sessionID, sess) ==> ShouldSetCookie(p, t, sessionID, sess)
    ensures !p.saveUninitialized ==> (ShouldSetCookie(p, t, sessionID, sess) <==> ShouldSave(p, t, sessionID, sess))
  {
  }

  /**
   * Without rolling, a returning session's cookie is sent again only when it
   * has an expiry and the session changed: a changed session whose cookie has
   * no expiry is stored, but its cookie is not re-sent.
   */
  lemma ReturningCookieResent(p: Policy, t: Tracking, sessionID: JsVal, sess: Session)
    requires sessionID.Str? && t.cookieId == sessionID && !p.rolling
    ensures ShouldSetCookie(p, t, sessionID, sess) ==> sess.cookie.expires.Some? && IsModified(t, sess)
    ensures sess.cookie.expires.None? && !IsSaved(t, sess) ==>
      ShouldSave(p, t, sessionID, sess) && !ShouldSetCookie(p, t, sessionID, sess)
  {
  }

  /**
   * As written, an explicit save does not stop the end-of-request save of a
   * new, modified session when uninitialised sessions are not saved: the data
   * is already saved, yet the decision is to write it again.
   */
  lemma ExplicitSaveRepeated(p: Policy, t: Tracking, sessionID: JsVal, sess: Session)
    requires !p.saveUninitialized && sessionID.Str? && t.cookieId != sessionID
    requires sess.id == t.originalId && t.originalHash != Some(Hash(sess))
    requires t.savedHash == Some(Hash(sess))
    ensures IsSaved(t, sess) && ShouldSave(p, t, sessionID, sess)
  {
  }

  /**
   * Save idempotence with the guard: once the handler has saved the session
   * and not changed it since, the end of the request writes nothing more,
   * whatever the options.
   */
  lemma ExplicitSaveIsFinal(p: Policy, t: Tracking, sessionID: JsVal, sess: Session)
    requires sess.id == t.originalId && t.savedHash == Some(Hash(sess))
    ensures !GuardedShouldSave(p, t, sessionID, sess)
  {
  }

  /** The guard only changes the decision after an explicit save of a new session. */
  lemma GuardOnlyAfterExplicitSave(p: Policy, t: Tracking, sessionID: JsVal, sess: Session)
    requires t.savedHash.None? || p.saveUninitialized || t.cookieId == sessionID
    ensures GuardedShouldSave(p, t, sessionID, sess) == ShouldSave(p, t, sessionID, sess)
  {
  }

  /**
   * A session loaded with resave off and left unmodified is not written back:
   * the end of the request touches it (if the store can) and sets no cookie
   * unless rolling.
   */
  lemma UnmodifiedLoadedSession(p: Policy, t: Tracking, sessionID: JsVal, sess: Session)
    requires sessionID.Str? && t.cookieId == sessionID && t.originalId == sessionID && sess.id == sessionID
    requires t.originalHash == Some(Hash(sess)) && t.savedHash == t.originalHash
    ensures !ShouldSave(p, t, sessionID, sess) && ShouldTouch(p, t, sessionID, sess)
    ensures ShouldSetCookie(p, t, sessionID, sess) <==> p.rolling
  {
  }

  /** The touch res.end performs before deciding does not change the decision. */
  lemma TouchKeepsDecision(p: Policy, t: Tracking, sessionID: JsVal, sess: Session, now: int)
    ensures ShouldSave(p, t, sessionID, TouchSession(sess, now)) == ShouldSave(p, t, sessionID, sess)
    ensures ShouldTouch(p, t, sessionID, TouchSession(sess, now)) == ShouldTouch(p, t, sessionID, sess)
  {
  }
}
