# Quarantine extension for tap, modelled in Dafny

quarantini extends a tap `Test` context with a `quarantine(startDate, name, extra, cb)`
entry point. Outside a quarantine run, a quarantined test is always registered as a todo,
so it is tracked without blocking the build. In a quarantine run, it runs while its grace
period lasts, and once that has passed it is forced back to a hard failure. This project
models the core of the extension, `src/extend-tap-test.js`, and proves properties of that
model.

- `quarantine_types.dfy` (module `QuarantineTypes`) holds the values that cross the
  boundary with the host:
  - `expirationInDays` as `PosInf | NegInf | Finite(days)`;
  - the explicit run mode as a JavaScript value (boolean, string, whole number or
    object), so that its truthiness can be stated;
  - the `extra`/`cb` arguments (absent, a function, or an options object);
  - a start date as its printed text plus the timestamp the date parser makes of it,
    or `None` when the date is invalid;
  - the registrar held in `test`/`_originalTest`, which is either a host registrar
    (told apart by identity) or the skip wrapper;
  - one `Registration` record per call that reaches the host.
- `quarantine_policy.dfy` (module `QuarantinePolicy`) holds the pure decisions:
  - reading the `QUARANTINI` variable, which is three-valued;
  - resolving the run mode, where the environment wins and the chosen value is coerced
    with `Boolean`;
  - the `|| 30` default for the window;
  - the ordered case split of `quarantine` as `Decide`, which returns one of four
    dispositions.
- `tap_extension.dfy` (module `TapExtension`) holds the context.
  - The context is a class `TapTest`. Its fields are the members that the extension
    adds and deletes in place, plus the host's append-only registration log.
  - `ExtendTapTest`, `Restore`, `Quarantine` and the skip wrapper are methods. Each is
    proved against a function on a `Members` snapshot (`Extended`, `Restored`,
    `QuarantineRegistration`, `Dispatch`).
  - Lemmas about those functions give the central round trip: extending a context that
    was never extended and then restoring it gives back the same `test` registrar and
    removes every added member; outside a quarantine run the members are exactly as
    before, and after one `test` has become an own property.
- `scenarios.dfy` (module `Scenarios`) replays the situations of
  `tests/extend-tap-test.test.js` on the model and states what reaches the host.

Inputs that the source reads from the outside world are parameters:
- the environment variable is `env: Option<string>`;
- `Date.now()` is `now`;
- the date parser is the `parsed` field of `StartDate`.

Extending twice without a restore in between is modelled as the source does it.
`DoubleExtendLosesOriginal` shows the consequence in a quarantine run. The second
extension saves the skip wrapper as `_originalTest`. After that, ordinary tests can no
longer be registered, because the wrapper calls itself without end. Restoring then
leaves the wrapper in place.

Registrations are logged with their arguments exactly as passed. In a quarantine run,
`quarantine` hands `extra` to the host unchanged and puts the forced-failure body in the
`cb` position. When a caller uses the three-argument form, `extra` is the caller's own
function. The host then receives two functions, and which one it runs is decided by
tap's argument parsing. That parsing is not part of this model;
`QuarantineRunRegistration` states what is passed.

## Model

| member | source | states |
|---|---|---|
| `QuarantinePolicy.ToLower` | src/extend-tap-test.js:50 | lower-casing keeps the length and maps every character on its own, A–Z to a–z |
| `QuarantinePolicy.GetEnvIsQuarantineRun` | src/extend-tap-test.js:46-57 | the result is absent exactly when the variable is unset; it is true exactly when the variable is some upper/lower-case spelling of "true" or is exactly "1"; any other value gives false |
| `QuarantinePolicy.ToBoolean` | src/extend-tap-test.js:31 | `Boolean(x)` is false exactly for a missing value, false, the empty string and 0 |
| `QuarantinePolicy.ResolveMode` | src/extend-tap-test.js:29-31 | defines the run mode (the set variable, else the explicit argument, coerced with `Boolean`); stated by `EnvironmentWins` and `ExplicitArgumentIsCoerced` |
| `QuarantinePolicy.EnvironmentWins` | src/extend-tap-test.js:29-31 | a set variable decides the mode whatever the explicit argument; an unset one leaves the explicit argument's truthiness |
| `QuarantinePolicy.ExplicitArgumentIsCoerced` | src/extend-tap-test.js:30-31 | with the variable unset, a string argument turns the mode on exactly when non-empty ("false" included), a number exactly when non-zero, and a missing one gives false |
| `QuarantinePolicy.ExpirationOrDefault` | src/extend-tap-test.js:27 | the window is never falsy; a truthy given window is kept; a missing or zero window becomes 30 days |
| `QuarantinePolicy.DefaultIsStable` | src/extend-tap-test.js:27 | writing the resolved window back into the options and extending again yields the same window |
| `QuarantinePolicy.ExpiryTime` | src/extend-tap-test.js:71 | defines the expiry instant, start plus the window in fixed-length days; stated by `FiniteWindow`, `StaysExpired` and `ExpiryBoundary` |
| `QuarantinePolicy.Decide` | src/extend-tap-test.js:62-93 | defines the ordered case split of `quarantine` (mode, +Infinity, -Infinity, invalid date, expiry instant); stated by `TodoExactlyOutsideQuarantineRun`, `InfinitiesIgnoreDates`, `InvalidStartDateIff`, `FiniteWindow`, `StaysExpired`, `ShorterWindowExpiresFirst` and `ExpiryBoundary` |
| `QuarantinePolicy.TodoExactlyOutsideQuarantineRun` | src/extend-tap-test.js:62-93 | a quarantined test is registered as a todo if and only if the run is not a quarantine run, whatever the dates and window |
| `QuarantinePolicy.InfinitiesIgnoreDates` | src/extend-tap-test.js:63-69 | in a quarantine run, +Infinity always runs the caller's body and -Infinity always forces the expired failure, for any start date (even an invalid one) and any clock |
| `QuarantinePolicy.InvalidStartDateIff` | src/extend-tap-test.js:71-74 | the invalid-date failure happens exactly in a quarantine run with a finite window and an unparseable start date |
| `QuarantinePolicy.FiniteWindow` | src/extend-tap-test.js:71-81 | with a finite window and a valid start, the body runs exactly while now is before start plus the window, and is forced to fail exactly from that instant on |
| `QuarantinePolicy.StaysExpired` | src/extend-tap-test.js:76-79 | once a quarantined test is expired it stays expired at every later time |
| `QuarantinePolicy.ShorterWindowExpiresFirst` | src/extend-tap-test.js:63-81 | in the order -Infinity < finite < +Infinity, a shorter window is expired whenever a longer one is |
| `QuarantinePolicy.ExpiryBoundary` | src/extend-tap-test.js:76-81 | started days+1 days ago: expired; exactly days ago: expired (equality counts); days-1 days ago: runs |
| `TapExtension.Extended` | src/extend-tap-test.js:31-43 | defines the members after extension; stated by `ExtendAddsMembers`, `RestoreUndoesExtend`, `QuarantineRunSkipsOrdinaryTests`, `DoubleExtendLosesOriginal` and `ExtendTapTest` |
| `TapExtension.Restored` | src/extend-tap-test.js:127-138 | defines the members after `restore`; stated by `RestoreRemovesMembers`, `RestoreUndoesExtend`, `DoubleExtendLosesOriginal` and `TapTest.Restore` |
| `TapExtension.ModeArgument` | src/extend-tap-test.js:18-21 | defines the explicit mode (a boolean second argument replaces the third); stated by `BooleanOptionsAreTheMode` and `ExtendTapTest` |
| `TapExtension.BooleanOptionsAreTheMode` | src/extend-tap-test.js:18-31 | with the variable unset, a boolean second argument is the mode whatever the third argument; any other second argument leaves the third argument's truthiness |
| `TapExtension.ExtendAddsMembers` | src/extend-tap-test.js:31-43 | extension adds the four members with the resolved mode and window; in a quarantine run `test` becomes the wrapper and the old `test` is saved, otherwise `test` and the saved slot are untouched |
| `TapExtension.RestoreRemovesMembers` | src/extend-tap-test.js:127-138 | restore removes the four members and the saved slot from any context, and `test` becomes the saved registrar if there was one, then as an own property; nothing else changes |
| `TapExtension.RestoreIsIdempotent` | src/extend-tap-test.js:127-138 | calling `restore` a second time (through a detached reference) changes nothing |
| `TapExtension.RestoreUndoesExtend` | src/extend-tap-test.js:127-138 | for a context never extended, restore after extend gives back the same `test` and no added member; outside a quarantine run the context is exactly as before; after a quarantine run, `test` has become an own property |
| `TapExtension.QuarantineName` | src/extend-tap-test.js:60 | defines the decorated name `[Quarantined (<startDate>)]: <name>`; stated by `QuarantineNameInjective`, `QuarantineRunRegistration` and `NormalRunRegistersTodo` |
| `TapExtension.QuarantineNameInjective` | src/extend-tap-test.js:60 | the `[Quarantined (<startDate>)]: <name>` decoration keeps distinct names with the same start date distinct |
| `TapExtension.CopyOptions` | src/extend-tap-test.js:90 | defines `Object.assign({}, extra)` (the options, or empty for anything else); stated by `FlaggedCopy` |
| `TapExtension.ShiftedCallback` | src/extend-tap-test.js:85-88 | defines the move of a function in `extra` to the body position (also src/extend-tap-test.js:116-119); stated by `NormalRunRegistersTodo` and `QuarantineRunSkipsOrdinaryTests` |
| `TapExtension.Dispatch` | src/extend-tap-test.js:115-125 | defines the call that reaches the host from a host registrar (directly) or from the skip wrapper (through `_originalTest`, or a throw); stated by `QuarantineRunSkipsOrdinaryTests`, `DoubleExtendLosesOriginal` and `TapTest.Call` |
| `TapExtension.QuarantineRegistration` | src/extend-tap-test.js:59-94 | defines the call `quarantine` makes from the members; stated by `QuarantineRunRegistration`, `NormalRunRegistersTodo` and `TapTest.Quarantine` |
| `TapExtension.FlaggedCopy` | src/extend-tap-test.js:90-91 | the options passed on are a copy of the caller's options (empty when a function was passed) with the flag (`todo` here, `skip` in the wrapper) set to true and every other key unchanged |
| `TapExtension.QuarantineRunRegistration` | src/extend-tap-test.js:62-82 | in a quarantine run a quarantined test reaches the saved registrar under the decorated name with `extra` as given; the body is the caller's, the expired failure or the invalid-date failure as the window, date and clock decide |
| `TapExtension.NormalRunRegistersTodo` | src/extend-tap-test.js:84-93 | outside a quarantine run a quarantined test reaches the current `test` under the decorated name with todo options, a function in `extra` moved to the body |
| `TapExtension.QuarantineRunSkipsOrdinaryTests` | src/extend-tap-test.js:38-41 | after a quarantine-run extension an ordinary `test` call reaches the intercepted host registrar under its own name with skip options |
| `TapExtension.DoubleExtendLosesOriginal` | src/extend-tap-test.js:38-41 | a second quarantine-run extension saves the wrapper as the original: ordinary registrations then fail and restore leaves the wrapper as `test` |
| `TapExtension.TapTest.Call` | src/extend-tap-test.js:115-125 | calling a registrar logs exactly the registration `Dispatch` determines (none when the wrapper throws) and reports whether one was logged |
| `TapExtension.TapTest.Test` | src/extend-tap-test.js:38-41 | `t.test(...)` calls whatever `test` currently holds, host registrar or skip wrapper, with the same log effect as `Dispatch` |
| `TapExtension.TapTest.QuarantineSkippedTest` | src/extend-tap-test.js:115-125 | the wrapper logs one skip registration through `_originalTest`, or nothing when that call would throw |
| `TapExtension.TapTest.Quarantine` | src/extend-tap-test.js:59-94 | one call: the log grows by exactly the registration that `QuarantineRegistration` determines from the members, and nothing else changes |
| `TapExtension.TapTest.Restore` | src/extend-tap-test.js:127-138 | the new members are `Restored` of the old ones, whether or not `restore` is still a member; the log is unchanged |
| `TapExtension.ExtendTapTest` | src/extend-tap-test.js:16-44 | a string or number second argument throws with the context unchanged; otherwise the new members are `Extended` of the old ones with the resolved mode and window, and a given options object receives the resolved window; the log is unchanged |
| `Scenarios.NormalRunKeepsTest` | tests/extend-tap-test.test.js:100-112 | outside a quarantine run the four members appear and `test` is the same registrar |
| `Scenarios.RestoreAfterQuarantineRun` | tests/extend-tap-test.test.js:217-235 | a quarantine-run extension replaces `test`; restore gives back the host registrar and removes every member |
| `Scenarios.NormalRunQuarantineIsTodo` | tests/extend-tap-test.test.js:158-184 | the quarantined test is registered once, as a todo, with its body in the body position |
| `Scenarios.QuarantineRunSkipsTest` | tests/extend-tap-test.test.js:237-262 | an ordinary test in a quarantine run is registered once, skipped |
| `Scenarios.QuarantineRunRunsYoungTests` | tests/extend-tap-test.test.js:292-324 | two tests started today are registered with their own bodies |
| `Scenarios.ExpiredTestIsForcedToFail` | tests/extend-tap-test.test.js:364-390 | a one-day window started yesterday registers the expired failure |
| `Scenarios.InfiniteWindowRunsOldTest` | tests/extend-tap-test.test.js:392-418 | +Infinity registers the caller's body for a 1970 start date |
| `Scenarios.NegativeInfiniteWindowFailsFutureTest` | tests/extend-tap-test.test.js:420-446 | -Infinity registers the expired failure for tomorrow's date |
| `Scenarios.InvalidStartDateIsForcedToFail` | tests/extend-tap-test.test.js:448-473 | "abcde" registers the invalid-date failure |
| `Scenarios.ZeroWindowBecomesDefault` | src/extend-tap-test.js:27 | a zero window becomes 30 days, both in the caller's options and on the context |
| `Scenarios.EnvironmentOverridesArgument` | tests/extend-tap-test.test.js:514-542 | "true" in the environment turns the mode on with no argument and over an explicit false; "false" turns it off over an explicit true |
| `Scenarios.ExplicitModeIsCoerced` | src/extend-tap-test.js:30-31 | with the variable unset, an explicit "false" makes a quarantine run and an explicit 0 does not |
| `Scenarios.StringOptionsThrow` | src/extend-tap-test.js:27 | a string second argument throws and leaves the context as it was |

## Left out

- Date parsing and calendar arithmetic of `moment`: a start date is its printed text plus an optional timestamp. The expiry instant is start plus days times a fixed 86 400 000 ms. Daylight-saving days and dates outside the ECMAScript time range are not modelled.
- Non-integer and NaN day counts: windows are whole numbers or an infinity; only 0 is modelled as falsy.
- ResolveMode: an explicit argument is a boolean, string, whole number or object; NaN, -0, non-integer numbers, BigInt and Symbol values are not modelled, so their truthiness (NaN and -0 are falsy) is not stated.
- ExtendTapTest: of the primitive second arguments that make the strict-mode write at src/extend-tap-test.js:27 throw, only strings and numbers are modelled; BigInt and Symbol are not. The thrown TypeError is reported as `thrown`, not as an exception.
- `toLowerCase` beyond A–Z: other characters are left unchanged. As far as is known, no other character lower-cases to one of the letters of "true", so the comparison is not affected.
- Reading `process.env.QUARANTINI` and calling `Date.now()`: they are parameters.
- The tap host: what it does with a registration is not modelled. This covers counting results, `plan`/`autoend`, asynchronous bodies, nested sub-tests, catching exceptions, and choosing between a function in `extra` and one in `cb`. The host is only a log of the calls that reach it.
- The text of the two forced-failure bodies (src/extend-tap-test.js:96-113): they are the markers `ExpiredFailure` and `InvalidStartDateFailure`.
- The return value of `quarantine` and of the wrapper, which is whatever the host returns: the methods return only whether a registration reached the host.
- Calling a detached `quarantine` reference after `restore`: `TapTest.Quarantine` requires the member to be present, since callers reach it through the context.
- Bound-function identity, `Object.create(null)` and `Object.assign` beyond copying own keys: the context's members are fields, and every skip wrapper is the same value. Of the prototype chain, only whether `test` is an own property of the context is tracked (`testIsOwn`); the other members are never inherited.
- scripts/update-changelog-version.js is not part of this model: it only rewrites a changelog file.
- The files under examples/example-tests are usage demonstrations and are not modelled.
