/** The behaviour exercised by the repository's test suite, replayed on the
    model: each method extends a fresh context, makes the calls the test
    makes, and states what reached the host. Caller bodies are numbered
    from 0; the host registrar of the fresh context is 1. */
module Scenarios {
  import opened QuarantineTypes
  import opened QuarantinePolicy
  import opened TapExtension

  /** Extension outside a quarantine run adds the members and leaves `test` alone. */
  method NormalRunKeepsTest() returns (before: Registrar, after: Members)
    ensures after == Members(before, false, None, Some(false), Some(Finite(30)), true, true)
  {
    var t := new TapTest(1, false);
    before := t.test;
    var _ := ExtendTapTest(t, Omitted, None, None);
    after := t.State();
  }

  /** Restore after a quarantine-run extension gives back the host registrar
      and removes every added member; `test`, inherited before, is now an
      own property. */
  method RestoreAfterQuarantineRun() returns (extended: Members, restored: Members)
    ensures extended.test != restored.test
    ensures restored == Members(Native(1), true, None, None, None, false, false)
  {
    var t := new TapTest(1, false);
    var _ := ExtendTapTest(t, ModeFlag(true), None, None);
    extended := t.State();
    t.Restore();
    restored := t.State();
  }

  /** Outside a quarantine run a quarantined test is registered as a todo,
      with its body moved from the options position to the body position. */
  method NormalRunQuarantineIsTodo(now: int) returns (log: seq<Registration>)
    ensures log == [Registration(1, "[Quarantined (20200417)]: should not run",
                                 Obj(map["todo" := Flag(true)]), Fn(CallerBody(0)))]
  {
    var t := new TapTest(1, false);
    var _ := ExtendTapTest(t, Omitted, None, None);
    assert QuarantineName("20200417", "should not run") == "[Quarantined (20200417)]: should not run";
    var _ := t.Quarantine(StartDate("20200417", Some(now)), "should not run", Fn(CallerBody(0)), Undefined, now);
    log := t.log;
  }

  /** During a quarantine run an ordinary test is registered as skipped. */
  method QuarantineRunSkipsTest() returns (log: seq<Registration>)
    ensures log == [Registration(1, "should be skipped", Obj(map["skip" := Flag(true)]), Fn(CallerBody(0)))]
  {
    var t := new TapTest(1, false);
    var _ := ExtendTapTest(t, ModeFlag(true), None, None);
    var _ := t.Test("should be skipped", Fn(CallerBody(0)), Undefined);
    log := t.log;
  }

  /** Quarantined tests started today run with their own bodies. */
  method QuarantineRunRunsYoungTests(today: string, now: int) returns (log: seq<Registration>)
    ensures log == [Registration(1, QuarantineName(today, "This should run"), Fn(CallerBody(0)), Undefined),
                    Registration(1, QuarantineName(today, "This should also run"), Fn(CallerBody(1)), Undefined)]
  {
    var t := new TapTest(1, false);
    var _ := ExtendTapTest(t, ModeFlag(true), None, None);
    var _ := t.Quarantine(StartDate(today, Some(now)), "This should run", Fn(CallerBody(0)), Undefined, now);
    var _ := t.Quarantine(StartDate(today, Some(now)), "This should also run", Fn(CallerBody(1)), Undefined, now);
    log := t.log;
  }

  /** A one-day window started yesterday has expired: the forced failure is registered. */
  method ExpiredTestIsForcedToFail(yesterday: string, now: int) returns (log: seq<Registration>)
    ensures log == [Registration(1, QuarantineName(yesterday, "This should fail without running."),
                                 Fn(CallerBody(0)), Fn(ExpiredFailure))]
  {
    var t := new TapTest(1, false);
    var opts := new ExtendOptions(Some(Finite(1)));
    var _ := ExtendTapTest(t, Given(opts), Some(Bool(true)), None);
    assert t.isQuarantineRun == Some(true) && t.expirationInDays == Some(Finite(1));
    var _ := t.Quarantine(StartDate(yesterday, Some(now - DAY_MS)), "This should fail without running.",
                          Fn(CallerBody(0)), Undefined, now);
    log := t.log;
  }

  /** An infinite window never expires, even for a start date in 1970. */
  method InfiniteWindowRunsOldTest(epoch: Option<int>, now: int) returns (log: seq<Registration>)
    ensures log == [Registration(1, QuarantineName("19700101", "This should should run"), Fn(CallerBody(0)), Undefined)]
  {
    var t := new TapTest(1, false);
    var opts := new ExtendOptions(Some(PosInf));
    var _ := ExtendTapTest(t, Given(opts), Some(Bool(true)), None);
    assert t.isQuarantineRun == Some(true) && t.expirationInDays == Some(PosInf);
    var _ := t.Quarantine(StartDate("19700101", epoch), "This should should run", Fn(CallerBody(0)), Undefined, now);
    log := t.log;
  }

  /** A window of minus infinity has always expired, even for tomorrow's date. */
  method NegativeInfiniteWindowFailsFutureTest(tomorrow: string, now: int) returns (log: seq<Registration>)
    ensures log == [Registration(1, QuarantineName(tomorrow, "This should fail without running."),
                                 Fn(CallerBody(0)), Fn(ExpiredFailure))]
  {
    var t := new TapTest(1, false);
    var opts := new ExtendOptions(Some(NegInf));
    var _ := ExtendTapTest(t, Given(opts), Some(Bool(true)), None);
    assert t.isQuarantineRun == Some(true) && t.expirationInDays == Some(NegInf);
    var _ := t.Quarantine(StartDate(tomorrow, Some(now + DAY_MS)), "This should fail without running.",
                          Fn(CallerBody(0)), Undefined, now);
    log := t.log;
  }

  /** An unparseable start date registers the invalid-date failure. */
  method InvalidStartDateIsForcedToFail(now: int) returns (log: seq<Registration>)
    ensures log == [Registration(1, QuarantineName("abcde", "This should fail without running."),
                                 Fn(CallerBody(0)), Fn(InvalidStartDateFailure))]
  {
    var t := new TapTest(1, false);
    var opts := new ExtendOptions(Some(Finite(1)));
    var _ := ExtendTapTest(t, Given(opts), Some(Bool(true)), None);
    assert t.isQuarantineRun == Some(true) && t.expirationInDays == Some(Finite(1));
    var _ := t.Quarantine(StartDate("abcde", None), "This should fail without running.",
                          Fn(CallerBody(0)), Undefined, now);
    log := t.log;
  }

  /** A window of 0 is falsy and becomes the default, written back into the caller's options. */
  method ZeroWindowBecomesDefault() returns (written: Option<Expiration>, used: Option<Expiration>)
    ensures written == used == Some(Finite(30))
  {
    var t := new TapTest(1, false);
    var opts := new ExtendOptions(Some(Finite(0)));
    var _ := ExtendTapTest(t, Given(opts), None, None);
    written, used := opts.expirationInDays, t.expirationInDays;
  }

  /** The environment variable wins over the explicit mode in both directions. */
  method EnvironmentOverridesArgument() returns (unset: bool, trueOverFalse: bool, falseOverTrue: bool)
    ensures unset && trueOverFalse && !falseOverTrue
  {
    var a := new TapTest(1, false);
    var _ := ExtendTapTest(a, Omitted, None, Some("true"));
    unset := a.isQuarantineRun == Some(true);
    var b := new TapTest(1, false);
    var _ := ExtendTapTest(b, ModeFlag(false), None, Some("true"));
    trueOverFalse := b.isQuarantineRun == Some(true);
    var c := new TapTest(1, false);
    var _ := ExtendTapTest(c, ModeFlag(true), None, Some("false"));
    falseOverTrue := c.isQuarantineRun == Some(true);
  }

  /** Without the environment variable, the explicit mode is coerced with
      `Boolean`: the string "false" makes a quarantine run, 0 does not. */
  method ExplicitModeIsCoerced() returns (fromText: bool, fromZero: bool)
    ensures fromText && !fromZero
  {
    var a := new TapTest(1, false);
    var opts := new ExtendOptions(None);
    var _ := ExtendTapTest(a, Given(opts), Some(Str("false")), None);
    fromText := a.isQuarantineRun == Some(true);
    var b := new TapTest(1, false);
    var _ := ExtendTapTest(b, Omitted, Some(Num(0)), None);
    fromZero := b.isQuarantineRun == Some(true);
  }

  /** A string in the options position throws before the context changes. */
  method StringOptionsThrow() returns (thrown: bool, after: Members)
    ensures thrown && after == Members(Native(1), false, None, None, None, false, false)
  {
    var t := new TapTest(1, false);
    thrown := ExtendTapTest(t, StringArg("opts"), None, None);
    after := t.State();
  }
}
