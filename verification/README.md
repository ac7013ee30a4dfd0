# express-session core, modelled in Dafny

This project models `index.js` of express-session. That file is the
per-request session coordinator. It:

- validates the options of `session()`;
- gates each request on store readiness, cookie path and secret;
- reads the session identifier from the signed cookie, with secret rotation;
- generates or loads the session;
- tracks whether the handler changed it (identifier plus data fingerprint);
- emits the signed `Set-Cookie` header when the response headers go out;
- takes over `res.end` so that the store call (save, touch or destroy)
  completes before the response is finished.

Modules, one file each:

- `Wrappers`, `Values`: `Option`/`Result`, and the JavaScript values the
  code inspects (`undefined`, `false`, a string) with truthiness.
- `Signature`: the cookie-signature codec `sign`/`unsign`, with the keyed
  digest as a parameter.
- `SessionData`: the session record, its cookie, `touch()`, and `hash(sess)`.
- `Options`: `session(options)` validation and defaults.
- `CookieId`: `unsigncookie` (a loop method) and `getcookie` (a method of
  successive fallbacks), each proved equal to a reference function.
- `Transport`: `issecure`, with the `X-Forwarded-Proto` string handling.
- `Decision`: `isModified`, `isSaved`, `shouldDestroy`, `shouldSave`,
  `shouldTouch`, `shouldSetCookie`, and the order in which `res.end`
  consults them.
- `Middleware`: two classes.
  - `SessionMiddleware` holds `storeReady`, the connect/disconnect events
    and the request gates.
  - `Exchange` is one request. It holds the closure variables
    (`originalId`, `originalHash`, `savedHash`, `touched`, `ended`, `sync`,
    `chunk`, `ret`), the request's `sessionID`/`session`, the response
    (`Set-Cookie`, `Content-Length`, body bytes, real-end count), and the
    log of store and `next()` calls.

The body of `res.end` (index.js:263-369) is split into methods:

- `Commit`: the store side.
- `Respond`, with `WriteTop`, `WriteEnd` and `AwaitStore`: the response side.
- `Deliver`: runs `Respond` and records the chunk.

A store callback either runs at once (`callbackNow`) or later
(`StoreCallback`).

Two consequences of the code that are easy to overlook:

- `hash(sess)` depends on the order in which properties were set, because
  `JSON.stringify` writes string keys in insertion order
  (`SessionData.HashSeesInsertionOrder`).
- With `rolling` off, a request that reuses its cookie and changes the data
  is stored, but its cookie is re-sent only when the cookie has an expiry
  (index.js:481-483; `Decision.ReturningCookieResent`).

The request model uses `shouldSave` as the code has it (index.js:449-459),
including the repeated save recorded under "## Findings"; the guarded
decision the code evidently intends is kept beside it as
`Decision.GuardedShouldSave`.

## Model

| member | source | states |
|---|---|---|
| Signature.Sign | index.js:681 | `sign(value, secret)`: the value, a '.', and the keyed digest of the value |
| Signature.Unsign | index.js:702 | a payload is returned only when re-signing it with the secret gives back the input; the payload is the text before the last '.' |
| Signature.SignedSeparator | index.js:681 | a signed value's last '.' is the one right after the payload |
| Signature.UnsignSign | index.js:681-702 | round trip: a value signed with a secret unsigns with that secret to the same value |
| Signature.UnsignPayload | index.js:700-710 | whichever secret verifies a signed value, the payload is the value that was signed |
| SessionData.Hash | index.js:615-631 | `hash(sess)`: the session's data entries, in order, without the top-level `cookie` key |
| SessionData.WithoutCookieMembers | index.js:615-624 | the fingerprint holds exactly the data entries whose key is not `cookie` |
| SessionData.HashIgnoresCookie | index.js:617-621 | changing the cookie, or the value under a top-level `cookie` key, leaves `hash(sess)` unchanged |
| SessionData.HashSeesInsertionOrder | index.js:617 | the same two properties with non-numeric keys, set in the other order, give a different fingerprint |
| SessionData.NewCookie | index.js:162-167 | a new cookie has the configured path, or "/" when none is given; it carries the secure flag it is given and the configured max-age as its original max-age; it expires `maxAge` after now exactly when a max-age is configured |
| SessionData.TouchCookie | index.js:249-253 | touching keeps path, secure flag and original max-age; it leaves an expiry exactly when there is an original max-age, and that expiry is the original max-age after now |
| SessionData.TouchSession | index.js:337-341 | touching changes neither the identifier nor the fingerprint |
| Options.Validate | index.js:87-149 | fails exactly for a non-function genid, an unset other than destroy/keep, or an empty secret array, with the first check's message; otherwise resave and saveUninitialized default to true, rolling and unset destroy need an explicit value, a single secret becomes a one-element list, an array is kept; the cookie name is `name`, else `key`, else "connect.sid"; the cookie options and proxy trust pass through unchanged |
| Transport.IndexOfChar | index.js:666 | -1 exactly when the character is absent; otherwise its first position |
| Transport.ToLower | index.js:668 | same length, each character lower-cased |
| Transport.LeadingSpace | index.js:668-669 | the length of the maximal white-space prefix |
| Transport.TrailingSpace | index.js:668-669 | the length of the maximal white-space suffix |
| Transport.Trim | index.js:668-669 | the result is the input with its leading and trailing white space removed: it follows the leading white space, only white space follows it, and it neither starts nor ends with white space; it is empty exactly when the input is all white space |
| Transport.TrimPadded | index.js:668-669 | trimming removes exactly the white space around an unpadded value |
| Transport.IsSecure | index.js:642-672 | true on an encrypted connection; otherwise false when proxy trust is false, `req.secure === true` when it is unset, and, when it is true, whether the first forwarded protocol, lower-cased and trimmed, is "https" |
| Transport.FirstElementDecides | index.js:666-669 | only the text before the first comma of X-Forwarded-Proto is read |
| Transport.PaddedHttps | index.js:663-671 | "https" in any letter case, with any padding, reads as "https" |
| Transport.ForwardedHttpsIsSecure | index.js:663-671 | with proxy trust on, a padded any-case "https" first element makes the request secure whatever follows it |
| CookieId.FirstUnsigned | index.js:700-710 | the payload from the first secret, in list order, that verifies the value; None when none does |
| CookieId.UnsignCookie | index.js:700-710 | the loop returns the payload of the first secret, in list order, that verifies the value, or None (`false`) |
| CookieId.FirstUnsignedWitness | index.js:700-710 | on success, the winning secret verified the value and signed the payload, and every earlier secret failed |
| CookieId.FirstUnsignedNone | index.js:700-710 | unsigncookie fails exactly when every secret fails |
| CookieId.RotationAccepts | index.js:700-710 | a value signed with any secret in the list reads back as the signed identifier |
| CookieId.FirstTruthyOrLast | index.js:572-602 | the result is undefined or an offered value; it is truthy exactly when some offered value is |
| CookieId.FirstTruthyOrLastAppend | index.js:572-602 | a later source changes the result only while no truthy value is held |
| CookieId.ReadSigned | index.js:552-565 | a missing, empty or unsigned raw value keeps the previous value; a signed one gives its verified payload, or undefined |
| CookieId.GetCookie | index.js:542-605 | the method's fallbacks compute the first truthy value offered by header, signedCookies and cookies, else the last offered |
| CookieId.Resolve | index.js:542-605 | the identifier getcookie yields: the first truthy value offered by the Cookie header, signedCookies and cookies, in that order, else the last offered, else undefined |
| CookieId.IssuedCookieResolves | index.js:554-565 | a cookie signed with a listed secret, found in the Cookie header, resolves to its identifier |
| CookieId.NeverFalse | index.js:558-561 | a failed signature yields undefined, never false: false comes only from cookie-parser's signedCookies |
| CookieId.UnverifiedIsAbsent | index.js:554-565 | with the header as the only source, an unsigned cookie or one that no secret verifies counts as no cookie |
| Decision.IsModified | index.js:432-436 | the session is modified when its identifier differs from the original one or its fingerprint from the original fingerprint |
| Decision.IsSaved | index.js:439-441 | the session is saved when it has the original identifier and its fingerprint is the one recorded by the last explicit save |
| Decision.ShouldDestroy | index.js:444-446 | destroy when the identifier is truthy, unset is "destroy" and req.session is gone |
| Decision.ShouldSave | index.js:449-459 | in the code's order: false without a string identifier; then, with saveUninitialized off and an identifier other than the cookie's, isModified; otherwise not isSaved |
| Decision.GuardedShouldSave | index.js:449-459 | the intended decision: as shouldSave, except that the isModified branch applies only while no explicit save has recorded a fingerprint |
| Decision.ShouldTouch | index.js:462-470 | false without a string identifier; otherwise the identifier is the cookie's and shouldSave is false |
| Decision.ShouldSetCookie | index.js:473-486 | false without a string identifier; for an identifier other than the cookie's, saveUninitialized or isModified; for the cookie's, rolling, or an expiry and isModified |
| Decision.Finalisation | index.js:316-368 | res.end's order: destroy if shouldDestroy; nothing without a session; save if shouldSave; touch if the store can and shouldTouch; otherwise no store call |
| Decision.TouchOnlyForStoredData | index.js:343-366 | res.end touches a record only when the store can, the identifier came with the request, and the store already holds exactly this session's data |
| Decision.ReturningSessionReachesStore | index.js:343-366 | a present session whose identifier came with the request is saved exactly when the store does not already hold its data, and otherwise touched exactly when the store can be |
| Decision.DestroyExcludesSaveAndTouch | index.js:316-335 | with shouldDestroy, or no session, neither save nor touch happens |
| Decision.NewSessionCookieFollowsSave | index.js:449-486 | a new session that is stored always gets its cookie; with saveUninitialized off, its cookie goes out exactly when it is stored |
| Decision.ReturningCookieResent | index.js:473-486 | without rolling, a returning session's cookie is re-sent only with an expiry and a change; a changed session without expiry is stored but gets no cookie |
| Decision.ExplicitSaveRepeated | index.js:456-458 | as written, a new modified session that the handler already saved is still to be saved again at the end |
| Decision.ExplicitSaveIsFinal | index.js:439-459 | with the guard, a session saved and unchanged since is not saved again, whatever the options |
| Decision.GuardOnlyAfterExplicitSave | index.js:449-459 | the guarded and the written decisions agree unless a new session has been saved explicitly |
| Decision.UnmodifiedLoadedSession | index.js:439-486 | a loaded, unmodified session with resave off is touched, not saved, and gets a cookie only when rolling |
| Decision.TouchKeepsDecision | index.js:337-343 | the touch before deciding changes neither shouldSave nor shouldTouch |
| Middleware.AppendSetCookie | index.js:686-689 | the new Set-Cookie list is the earlier lines, in order, followed by the new one |
| Middleware.AfterTouch | index.js:337-341 | the once-per-request touch keeps presence, identifier and fingerprint |
| Middleware.HookEffect | index.js:230-257 | without a session, or once touched, the header listener leaves req.session and `touched` as they were |
| Middleware.HeaderListenerEffect | index.js:230-257 | the session cookie, signed with the first secret, is appended after the earlier Set-Cookie lines exactly when there is a session, shouldSetCookie holds and the cookie is not secure or the request is; the session is touched once before, keeping identifier and data; otherwise nothing changes |
| Middleware.PathInScope | index.js:199-201 | the request path (or "/") starts with the cookie path (or "/") |
| Middleware.SessionMiddleware.constructor | index.js:173 | a new middleware starts with the store ready |
| Middleware.SessionMiddleware.Disconnect | index.js:174-176 | the disconnect event clears readiness |
| Middleware.SessionMiddleware.Connect | index.js:177-179 | the connect event sets readiness |
| Middleware.SessionMiddleware.Admit | index.js:184-216 | a request passes through when it has a session, the store is not ready, or its path is outside the cookie path; it fails for a missing secret exactly when both secrets are absent; it is handled exactly when it passes every gate, with the configured secrets or else `[req.secret]` |
| Middleware.Exchange.constructor | index.js:216-227 | the request's identifier is getcookie's; cookies are signed with the first secret; secureRequest is issecure's verdict; resave, cookie options, secrets, digest, touch capability and clock are the ones given; without an identifier a fresh, unmodified, wrapped session with a new cookie exists and next() was called, otherwise store.get was called with the identifier |
| Middleware.Exchange.Start | index.js:488-498 | without an identifier, a fresh, unmodified, wrapped session with a new cookie is generated and next() is called; with one, store.get is called with it |
| Middleware.Exchange.Generate | index.js:372-378 | store.generate installs a new session under the fresh identifier; identifier and fingerprint are captured; the session is wrapped |
| Middleware.Exchange.Inflate | index.js:381-394 | the loaded record becomes req.session under the request's identifier; the original fingerprint is its hash, and so is the saved one when resave is off; the session is not modified |
| Middleware.Exchange.OnLoad | index.js:498-520 | a store error other than ENOENT goes to next(err) and leaves identifier, session and tracking as they were; a miss generates a new, unmodified, wrapped session under the fresh identifier; a hit is inflated, unmodified, wrapped, and counts as saved when resave is off; next() follows both |
| Middleware.Exchange.Assign | index.js:432-436 | after the handler replaces the data, the session is modified exactly when its identifier or fingerprint differs from the originals |
| Middleware.Exchange.Unset | index.js:444-446 | the handler clearing req.session leaves no session, which is what shouldDestroy looks for |
| Middleware.Exchange.Save | index.js:410-414 | the wrapped save records the fingerprint before writing the record; afterwards the session counts as saved, and shouldSave is false unless it is a new session with saveUninitialized off (the finding below) |
| Middleware.Exchange.Reload | index.js:402-408 | a reload fetches the record again and, when found, replaces req.session; tracking state and wrapping are unchanged |
| Middleware.Exchange.Regenerate | index.js:159-168 | the old record is destroyed; a fresh, unwrapped session is installed under the new identifier, and it counts as modified whenever that identifier differs from the original one |
| Middleware.Exchange.Write | index.js:230-261 | a handler write sends the headers first (running the listener once) and appends the bytes |
| Middleware.Exchange.SetCookieHeader | index.js:680-690 | setcookie appends the signed session cookie to the previous Set-Cookie lines |
| Middleware.Exchange.EmitHeaders | index.js:230-257 | the header listener's effect is HookEffect of the state at that moment |
| Middleware.Exchange.UnderlyingWrite | index.js:261 | the real write sends the headers first and appends the bytes |
| Middleware.Exchange.UnderlyingEnd | index.js:260 | the real end sends the headers first, appends the bytes and counts one real end |
| Middleware.Exchange.WriteEnd | index.js:273-281 | writeend calls the real end once, with the held chunk while writetop has not passed it on, and without it afterwards |
| Middleware.Exchange.WriteTop | index.js:283-314 | writetop passes bytes on without losing any (body plus held equals before); it holds back the last byte when Content-Length is positive and otherwise writes the whole chunk; once the chunk has gone out it returns the stored ret and changes nothing |
| Middleware.Exchange.Complete | index.js:319-326 | a store callback forwards an error to next, then runs writeend |
| Middleware.Exchange.AwaitStore | index.js:319-328 | a store call's callback either finishes the response at once or leaves it pending with writetop's return value |
| Middleware.Exchange.End | index.js:263-369 | a second call returns false and changes nothing; the first makes the store call of the finalisation order, with shouldSave as written, and changes no identifier, original, Content-Length or load state; the real end runs once now or when the callback comes; the body keeps what was sent before and, by the real end, continues with exactly the chunk; a save records the fingerprint; a pending callback is for that outcome; Set-Cookie is what the listener makes of the final state |
| Middleware.Exchange.EndFirst | index.js:268-368 | the first end call: the store call of the finalisation order, then the response; the same guarantees and the same frame as End |
| Middleware.Exchange.Commit | index.js:316-368 | the outcome is the finalisation order, with shouldSave as written, on the state end was called in; the session is touched once (and `touched` is left alone when there is none); the store log gains that outcome's call; a save records the fingerprint |
| Middleware.Exchange.Deliver | index.js:268-314 | ends the response or waits for the callback of that outcome; the body keeps what was sent before, and the delivered bytes after it plus the held ones are the chunk |
| Middleware.Exchange.Respond | index.js:268-368 | marks the response ended and holds the chunk; the real end runs at once unless a store call is pending; Set-Cookie is what the listener makes of the current session |
| Middleware.Exchange.StoreCallback | index.js:344-350 | the late callback forwards an error, runs the one real end, and completes the chunk: the bytes after the earlier body are exactly the chunk |
| Middleware.Exchange.DestroySession | index.js:444-446 | destroying removes req.session and the record; the end of the request then destroys again only with unset destroy |
| Middleware.Exchange.SetContentLength | index.js:293-295 | the handler's Content-Length is what writetop reads |
| Middleware.Exchange.SetHeaderCookies | index.js:686-687 | a Set-Cookie header set by the handler is kept: the listener only appends to it |

## Left out

- SHA-1 and `JSON.stringify`: `hash(sess)` is idealised as the serialised entries themselves, in insertion order. Equal fingerprints mean equal data, which a real digest only makes overwhelmingly likely. Two differences from a JavaScript object remain: `JSON.stringify` writes integer-like keys ("1", "2") first, in ascending order, whatever the insertion order, while the model keeps insertion order for them too; and the entry list can hold the same key twice, which an object cannot.
- The keyed digest of cookie-signature (HMAC-SHA256, base64): it is a parameter; the only fact used is that its output contains no '.'. The library's timing-safe comparison is modelled as plain equality.
- `cookie.parse` and `cookie.serialize`: the parsed cookie maps are inputs, and a Set-Cookie line is kept structured (name, signed value, cookie data) rather than serialised.
- `parseUrl`, `on-headers`, `uid-safe`, `debug`, `deprecate`, and the `NODE_ENV` production warning: the path, the fresh identifier and the chunk bytes are inputs; the header hook is the explicit EmitHeaders call; logging is not modelled.
- `session/cookie.js`, `session/memory.js`, `session/session.js` and `session/store.js` are not part of this model. A cookie keeps only path, secure flag, expiry and original max-age, and expiry is plain arithmetic on a `now` parameter. `createSession`, `reload`, `regenerate` and `destroy` are modelled by their effect on req.session and the store log.
- Store calls never run concurrently. A callback runs either at once or later, through StoreCallback; deferral by `defer`/`setImmediate` is not modelled.
- The `encoding` argument of `res.end`: the chunk is modelled as bytes.
- `Buffer.from`: its conversion of a string chunk is not modelled.
- `Number(res.getHeader('Content-Length'))` is an optional integer; a non-numeric value is None, as `NaN` fails the test.
- Exceptions thrown by `generate` or `inflate` inside the store.get callback (index.js:514-516) are not modelled.
- `genid`'s result is assumed to be a string.
- Middleware.Exchange.Write: requires the response not to have ended; what the handler writes after `res.end` is not modelled.
- Middleware.Exchange.constructor: issecure is evaluated once per request, since the facts it reads do not change during a request.
- Transport.LowerChar: lower-casing covers ASCII letters only; no other character lower-cases to a letter of "https" or to white space, so the comparison is unaffected.
- `storeImplementsTouch` (index.js:170) is computed once per store; the model passes it to each request's Exchange as `touchCapable` instead of keeping it on SessionMiddleware.
- The `next()` and `next(err)` continuations are recorded in a log; what later middleware does is not modelled.

## Findings

| source | as written | input that shows it | evidently intended | confidence | as-written member | corrected member |
|---|---|---|---|---|---|---|
| index.js:456-458 | with `saveUninitialized` false and a new identifier, shouldSave is `isModified(req.session)`, even after the handler saved the session explicitly | saveUninitialized false, no incoming cookie, the handler sets a property and calls `req.session.save()`, then ends the response: savedHash equals the current hash, yet isModified is true, so the store is written a second time | once an explicit save has recorded `savedHash`, the end of the request saves only when the session changed since (`!isSaved`) | not executed | Decision.ExplicitSaveRepeated | Decision.ExplicitSaveIsFinal |
