/** The pure decisions of the quarantine extension: how the environment
    variable is read, how the run mode and the expiration window are
    resolved, and which registration `quarantine` makes. */
module QuarantinePolicy {
  import opened QuarantineTypes

  /** Default expiration window, in days. */
  const DEFAULT_EXPIRATION_DAYS: int := 30

  /** Length of one day in milliseconds (calendar effects are not modelled). */
  const DAY_MS: int := 86_400_000

  // ---------------------------------------------------------------------
  // The environment variable

  function LowerChar(c: char): (r: char) {
    if 'A' <= c <= 'Z' then (c as int + 32) as char else c
  }

  /** `String.prototype.toLowerCase` on the letters A to Z. */
  function ToLower(s: string): (r: string)
    ensures |r| == |s|
    ensures forall i :: 0 <= i < |s| ==> r[i] == LowerChar(s[i])
  {
    if s == [] then [] else [LowerChar(s[0])] + ToLower(s[1..])
  }

  /** The spellings of "true" in any mix of upper and lower case. */
  predicate IsTrueSpelling(s: string) {
    && |s| == 4
    && s[0] in {'t', 'T'} && s[1] in {'r', 'R'}
    && s[2] in {'u', 'U'} && s[3] in {'e', 'E'}
  }

  /** Reading the environment variable: `None` when it is not set, otherwise
      whether it lower-cases to "true" or is exactly "1". */
  function GetEnvIsQuarantineRun(env: Option<string>): (r: Option<bool>)
    ensures r.None? <==> env.None?
    ensures r == Some(true) <==> env.Some? && (IsTrueSpelling(env.value) || env.value == "1")
  {
    match env
    case None => None
    case Some(setting) => Some(ToLower(setting) == "true" || setting == "1")
  }

  /** ECMAScript's ToBoolean (what `Boolean(x)` computes): `undefined`,
      `null`, `false`, the empty string and 0 are false, everything else is true. */
  function ToBoolean(v: Option<JsValue>): (r: bool)
    ensures !r <==> v in {None, Some(Bool(false)), Some(Str("")), Some(Num(0))}
  {
    match v
    case None => false
    case Some(Bool(b)) => b
    case Some(Str(s)) => s != ""
    case Some(Num(n)) => n != 0
    case Some(Object) => true
  }

  /** The run mode: a set environment variable wins over the explicit
      argument, and whichever is chosen is coerced with `Boolean`. */
  function ResolveMode(envSetting: Option<bool>, explicit: Option<JsValue>): (r: bool) {
    var isQuarantine := if envSetting.Some? then Some(Bool(envSetting.value)) else explicit;
    ToBoolean(isQuarantine)
  }

  lemma EnvironmentWins(env: Option<string>, explicit: Option<JsValue>)
    ensures env.Some? ==> ResolveMode(GetEnvIsQuarantineRun(env), explicit)
                          == (IsTrueSpelling(env.value) || env.value == "1")
    ensures env.None? ==> ResolveMode(GetEnvIsQuarantineRun(env), explicit) == ToBoolean(explicit)
  {
  }

  /** Without the environment variable, a non-boolean explicit argument
      decides by its truthiness: the string "false" turns the mode on, 0 and
      the empty string turn it off. */
  lemma ExplicitArgumentIsCoerced(text: string, n: int)
    ensures ResolveMode(None, Some(Str(text))) == (text != "")
    ensures ResolveMode(None, Some(Num(n))) == (n != 0)
    ensures ResolveMode(None, Some(Str("false")))
    ensures ResolveMode(None, None) == false
  {
  }

  // ---------------------------------------------------------------------
  // The expiration window

  /** JavaScript truthiness of an expiration value: only 0 is falsy here. */
  predicate Truthy(e: Option<Expiration>) {
    e.Some? && e.value != Finite(0)
  }

  /** `opts.expirationInDays || DEFAULT_EXPIRATION_DAYS`. */
  function ExpirationOrDefault(given: Option<Expiration>): (r: Expiration)
    ensures Truthy(Some(r))
    ensures Truthy(given) ==> r == given.value
    ensures !Truthy(given) ==> r == Finite(DEFAULT_EXPIRATION_DAYS)
  {
    if Truthy(given) then given.value else Finite(DEFAULT_EXPIRATION_DAYS)
  }

  /** The default is written back into the caller's options, so extending
      again with the same options object keeps the same window. */
  lemma DefaultIsStable(given: Option<Expiration>)
    ensures ExpirationOrDefault(Some(ExpirationOrDefault(given))) == ExpirationOrDefault(given)
  {
  }

  /** The instant a finite quarantine expires. */
  function ExpiryTime(start: int, days: int): (r: int) {
    start + days * DAY_MS
  }

  // ---------------------------------------------------------------------
  // The decision made by `quarantine`

  /** How one quarantined test is registered. */
  datatype Disposition =
    | RunCallerBody          // through `_originalTest`, with the caller's body
    | ForceExpired           // through `_originalTest`, with the expired-failure body
    | ForceInvalidStartDate  // through `_originalTest`, with the invalid-date failure body
    | RegisterTodo           // through the current `test`, with `todo: true`

  /** The ordered case split of `quarantine`: the infinities are checked
      before the start date is parsed, and the comparison with the expiry
      instant counts equality as expired. */
  function Decide(isQuarantineRun: bool, expirationInDays: Expiration, start: Option<int>, now: int): (r: Disposition) {
    if !isQuarantineRun then RegisterTodo
    else if expirationInDays == PosInf then RunCallerBody
    else if expirationInDays == NegInf then ForceExpired
    else if start.None? then ForceInvalidStartDate
    else if now >= ExpiryTime(start.value, expirationInDays.days) then ForceExpired
    else RunCallerBody
  }

  /** Outside a quarantine run every quarantined test is a todo, whatever its
      dates; inside one it never is. */
  lemma TodoExactlyOutsideQuarantineRun(q: bool, e: Expiration, start: Option<int>, now: int)
    ensures Decide(q, e, start, now) == RegisterTodo <==> !q
  {
  }

  /** The infinities decide without looking at the start date or the clock. */
  lemma InfinitiesIgnoreDates(start: Option<int>, now: int)
    ensures Decide(true, PosInf, start, now) == RunCallerBody
    ensures Decide(true, NegInf, start, now) == ForceExpired
  {
  }

  /** An unparseable start date fails only with a finite window, and then
      whatever the clock says. */
  lemma InvalidStartDateIff(q: bool, e: Expiration, start: Option<int>, now: int)
    ensures Decide(q, e, start, now) == ForceInvalidStartDate <==> q && e.Finite? && start.None?
  {
  }

  /** With a finite window and a valid start date the test runs exactly
      while the clock is before the expiry instant. */
  lemma FiniteWindow(days: int, start: int, now: int)
    ensures Decide(true, Finite(days), Some(start), now) == RunCallerBody <==> now < ExpiryTime(start, days)
    ensures Decide(true, Finite(days), Some(start), now) == ForceExpired <==> now >= ExpiryTime(start, days)
  {
  }

  /** Once a quarantined test has expired it stays expired. */
  lemma StaysExpired(q: bool, e: Expiration, start: Option<int>, now: int, later: int)
    requires now <= later
    requires Decide(q, e, start, now) == ForceExpired
    ensures Decide(q, e, start, later) == ForceExpired
  {
  }

  /** The order of windows: -Infinity, then the finite ones, then +Infinity. */
  predicate NoLongerThan(a: Expiration, b: Expiration) {
    a == NegInf || b == PosInf || (a.Finite? && b.Finite? && a.days <= b.days)
  }

  /** A shorter window never expires later than a longer one. */
  lemma ShorterWindowExpiresFirst(a: Expiration, b: Expiration, start: Option<int>, now: int)
    requires NoLongerThan(a, b)
    requires Decide(true, b, start, now) == ForceExpired
    ensures Decide(true, a, start, now) == ForceExpired
  {
  }

  /** The boundaries: started `days + 1` days ago is expired, `days` days ago
      is expired too (equality counts), `days - 1` days ago still runs. */
  lemma ExpiryBoundary(days: int, now: int)
    ensures Decide(true, Finite(days), Some(now - (days + 1) * DAY_MS), now) == ForceExpired
    ensures Decide(true, Finite(days), Some(now - days * DAY_MS), now) == ForceExpired
    ensures Decide(true, Finite(days), Some(now - (days - 1) * DAY_MS), now) == RunCallerBody
  {
  }
}
