/**
 * The option checks and defaults of `session(options)`, run once when the
 * middleware is created. A bad option throws a TypeError, modelled as a
 * Failure carrying its message.
 */
module Options {
  import opened Wrappers
  import opened SessionData

  /** `opts.genid`: absent (the built-in generator), a function, or anything else. */
  datatype GenidOption = DefaultGenerator | GeneratorFunction | NotAFunction

  /** `opts.secret`: absent, one string, or an array of strings. */
  datatype SecretOption = NoSecret | SecretString(secret: string) | SecretArray(secrets: seq<string>)

  /** `opts.proxy`: exactly true, exactly false, or anything else (unset). */
  datatype ProxyTrust = ProxyTrue | ProxyFalse | ProxyUnset

  /** The options as given; an absent option is None, and "" is JavaScript-falsy. */
  datatype RawOptions = RawOptions(
    cookie: CookieOptions,
    genid: GenidOption,
    name: Option<string>,
    key: Option<string>,
    proxy: ProxyTrust,
    resave: Option<bool>,
    rolling: Option<bool>,
    saveUninitialized: Option<bool>,
    secret: SecretOption,
    unset: Option<string>)

  /** The settings the returned middleware closes over. */
  datatype Config = Config(
    cookie: CookieOptions,
    name: string,
    proxy: ProxyTrust,
    resave: bool,
    rolling: bool,
    saveUninitialized: bool,
    secrets: Option<seq<string>>,
    unsetDestroy: bool)

  const GenidError := "genid option must be a function"
  const UnsetError := "unset option must be \"destroy\" or \"keep\""
  const SecretArrayError := "secret option array must contain one or more strings"
  const DefaultName := "connect.sid"

  /** A falsy `unset` is accepted and means "keep". */
  predicate UnsetAccepted(unset: Option<string>) {
    unset.None? || unset.value == "" || unset.value == "destroy" || unset.value == "keep"
  }

  /** What every accepted configuration guarantees to the middleware. */
  predicate WellFormed(c: Config) {
    && c.name != ""
    && (c.secrets.Some? ==> |c.secrets.value| > 0)
  }

  /** `x || fallback` on an optional string. */
  function OrElse(x: Option<string>, fallback: string): string {
    if x.Some? && x.value != "" then x.value else fallback
  }

  /** The secret list after normalisation; None when no secret is configured. */
  function NormalSecrets(secret: SecretOption): Option<seq<string>> {
    match secret
    case NoSecret => None
    case SecretString(s) => if s == "" then None else Some([s])
    case SecretArray(list) => Some(list)
  }

  /** The message of the first check that fails, in the order session() runs them. */
  function FirstOptionError(o: RawOptions): string {
    if o.genid == NotAFunction then GenidError
    else if !UnsetAccepted(o.unset) then UnsetError
    else SecretArrayError
  }

  /** session(options) up to the point where the closure is returned (index.js:87-149). */
  function Validate(o: RawOptions): (r: Result<Config, string>)
    ensures r.Failure? <==>
      o.genid == NotAFunction || !UnsetAccepted(o.unset) || o.secret == SecretArray([])
    ensures r.Failure? ==> r.error == FirstOptionError(o)
    ensures r.Success? ==> WellFormed(r.value)
    ensures r.Success? ==> r.value.name == OrElse(o.name, OrElse(o.key, DefaultName))
    ensures r.Success? ==> r.value.cookie == o.cookie && r.value.proxy == o.proxy
    ensures r.Success? ==> r.value.resave == (o.resave != Some(false))
    ensures r.Success? ==> r.value.saveUninitialized == (o.saveUninitialized != Some(false))
    ensures r.Success? ==> r.value.rolling == (o.rolling == Some(true))
    ensures r.Success? ==> r.value.unsetDestroy == (o.unset == Some("destroy"))
    ensures r.Success? && o.secret.SecretString? && o.secret.secret != "" ==>
      r.value.secrets == Some([o.secret.secret])
    ensures r.Success? && o.secret.SecretArray? ==> r.value.secrets == Some(o.secret.secrets)
    ensures r.Success? && (o.secret.NoSecret? || o.secret == SecretString("")) ==> r.value.secrets.None?
  {
    if o.genid == NotAFunction then Failure(GenidError)
    else if !UnsetAccepted(o.unset) then Failure(UnsetError)
    else if o.secret == SecretArray([]) then Failure(SecretArrayError)
    else
      Success(Config(
        o.cookie,
        OrElse(o.name, OrElse(o.key, DefaultName)),
        o.proxy,
        o.resave.None? || o.resave.value,
        o.rolling == Some(true),
        o.saveUninitialized.None? || o.saveUninitialized.value,
        NormalSecrets(o.secret),
        o.unset == Some("destroy")))
  }
}
