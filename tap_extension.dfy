/** The extension of a tap Test context: `extendTapTest` adds members to the
    context in place, `restore` takes them away again, `quarantine` and the
    skip wrapper each make one call to a host registrar. The host keeps the
    calls that reach it in an append-only log. */
module TapExtension {
  import opened QuarantineTypes
  import opened QuarantinePolicy

  // ---------------------------------------------------------------------
  // The members of a context, as a value

  /** The members the extension reads or writes. `testIsOwn` says whether
      `test` is an own property of the context rather than one inherited
      from its prototype; `hasQuarantine` and `hasRestore` say whether the
      bound `quarantine` and `restore` functions are present. */
  datatype Members = Members(
    test: Registrar,
    testIsOwn: bool,
    originalTest: Option<Registrar>,
    isQuarantineRun: Option<bool>,
    expirationInDays: Option<Expiration>,
    hasQuarantine: bool,
    hasRestore: bool)

  /** A context that has never been extended. */
  predicate Pristine(s: Members) {
    && s.originalTest.None? && s.isQuarantineRun.None? && s.expirationInDays.None?
    && !s.hasQuarantine && !s.hasRestore
  }

  /** What extension keeps true: the four added members come and go together,
      and a quarantine run has saved the registrar it intercepted. */
  predicate Consistent(s: Members) {
    && s.hasQuarantine == s.hasRestore
    && (s.hasQuarantine <==> s.isQuarantineRun.Some?)
    && (s.hasQuarantine <==> s.expirationInDays.Some?)
    && (s.isQuarantineRun == Some(true) ==> s.originalTest.Some?)
  }

  /** The members after extension with run mode `mode` and window `days`. */
  function Extended(s: Members, mode: bool, days: Expiration): (r: Members) {
    Members(
      test := if mode then SkipWrapper else s.test,
      testIsOwn := mode || s.testIsOwn,
      originalTest := if mode then Some(s.test) else s.originalTest,
      isQuarantineRun := Some(mode),
      expirationInDays := Some(days),
      hasQuarantine := true,
      hasRestore := true)
  }

  /** The members after `restore`. Reinstating the saved registrar assigns
      `test`, which makes it an own property of the context. */
  function Restored(s: Members): (r: Members) {
    var reinstated :=
      if s.originalTest.Some? then s.(test := s.originalTest.value, testIsOwn := true, originalTest := None) else s;
    reinstated.(isQuarantineRun := None, expirationInDays := None, hasQuarantine := false, hasRestore := false)
  }

  lemma ExtendAddsMembers(s: Members, mode: bool, days: Expiration)
    ensures var e := Extended(s, mode, days);
      && Consistent(e) && e.hasQuarantine && e.hasRestore
      && e.isQuarantineRun == Some(mode) && e.expirationInDays == Some(days)
      && (mode ==> e.test == SkipWrapper && e.testIsOwn)
      && (mode ==> e.originalTest == Some(s.test))
      && (!mode ==> e.test == s.test && e.testIsOwn == s.testIsOwn && e.originalTest == s.originalTest)
  {
  }

  /** Restoring removes the four added members from any context and leaves
      no saved registrar behind. */
  lemma RestoreRemovesMembers(s: Members)
    ensures var r := Restored(s);
      && r.isQuarantineRun.None? && r.expirationInDays.None?
      && !r.hasQuarantine && !r.hasRestore && r.originalTest.None?
      && r.test == (if s.originalTest.Some? then s.originalTest.value else s.test)
      && r.testIsOwn == (s.testIsOwn || s.originalTest.Some?)
  {
  }

  /** A second `restore`, through a detached reference, changes nothing. */
  lemma RestoreIsIdempotent(s: Members)
    ensures Restored(Restored(s)) == Restored(s)
  {
  }

  /** Extending a context that was never extended and then restoring it gives
      back the same `test` registrar and no added member. Outside a quarantine
      run nothing else differs; after a quarantine run `test` has become an
      own property of the context. */
  lemma RestoreUndoesExtend(s: Members, mode: bool, days: Expiration)
    requires Pristine(s)
    ensures Restored(Extended(s, mode, days)) == s.(testIsOwn := s.testIsOwn || mode)
    ensures Restored(Extended(s, mode, days)).test == s.test
    ensures !mode ==> Restored(Extended(s, mode, days)) == s
  {
  }

  // ---------------------------------------------------------------------
  // Registration calls

  /** The decorated name under which every quarantined test is registered. */
  function QuarantineName(startText: string, name: string): (r: string) {
    "[Quarantined (" + startText + ")]: " + name
  }

  /** The decoration keeps different test names with the same start date apart. */
  lemma {:induction false} QuarantineNameInjective(startText: string, a: string, b: string)
    requires QuarantineName(startText, a) == QuarantineName(startText, b)
    ensures a == b
  {
    var prefix := "[Quarantined (" + startText + ")]: ";
    assert QuarantineName(startText, a) == prefix + a;
    assert QuarantineName(startText, b) == prefix + b;
    assert a == (prefix + a)[|prefix|..];
    assert b == (prefix + b)[|prefix|..];
  }

  /** `Object.assign({}, extra)`: a fresh copy of an options object; anything
      else copies to an empty object. */
  function CopyOptions(extra: Arg): (r: TestOptions) {
    if extra.Obj? then extra.options else map[]
  }

  /** The options a registration receives: a copy of the caller's options
      with `flag` set to true (`todo` for a quarantined test outside a
      quarantine run, `skip` for an ordinary test during one). */
  function FlaggedCopy(extra: Arg, flag: string): (r: TestOptions)
    ensures r.Keys == CopyOptions(extra).Keys + {flag}
    ensures r[flag] == Flag(true)
    ensures forall k :: k in CopyOptions(extra) && k != flag ==> r[k] == CopyOptions(extra)[k]
  {
    CopyOptions(extra)[flag := Flag(true)]
  }

  /** A function passed in the options position becomes the body, replacing
      whatever was passed as the body. */
  function ShiftedCallback(extra: Arg, cb: Arg): (r: Arg) {
    if extra.Fn? then extra else cb
  }

  /** The call that reaches the host when `registrar` is called in a context
      whose `_originalTest` is `saved`. `None` when the call throws: the
      skip wrapper calls `_originalTest`, which may be missing, or may be
      the skip wrapper itself, which then calls itself without end. */
  function Dispatch(registrar: Registrar, saved: Option<Registrar>, name: string, extra: Arg, cb: Arg): (r: Option<Registration>) {
    match registrar
    case Native(id) => Some(Registration(id, name, extra, cb))
    case SkipWrapper =>
      if saved.Some? && saved.value.Native? then
        Some(Registration(saved.value.id, name, Obj(FlaggedCopy(extra, "skip")), ShiftedCallback(extra, cb)))
      else None
  }

  /** The call that `quarantine` makes in a context with members `s`. */
  function QuarantineRegistration(s: Members, startDate: StartDate, name: string, extra: Arg, cb: Arg, now: int): (r: Option<Registration>)
    requires Consistent(s) && s.hasQuarantine
  {
    var quarantineName := QuarantineName(startDate.text, name);
    match Decide(s.isQuarantineRun == Some(true), s.expirationInDays.value, startDate.parsed, now)
    case RunCallerBody => Dispatch(s.originalTest.value, s.originalTest, quarantineName, extra, cb)
    case ForceExpired => Dispatch(s.originalTest.value, s.originalTest, quarantineName, extra, Fn(ExpiredFailure))
    case ForceInvalidStartDate => Dispatch(s.originalTest.value, s.originalTest, quarantineName, extra, Fn(InvalidStartDateFailure))
    case RegisterTodo => Dispatch(s.test, s.originalTest, quarantineName, Obj(FlaggedCopy(extra, "todo")), ShiftedCallback(extra, cb))
  }

  /** During a quarantine run every quarantined test reaches the saved
      registrar under its decorated name with the caller's `extra` untouched;
      only the body depends on the window, the start date and the clock. */
  lemma QuarantineRunRegistration(s: Members, startDate: StartDate, name: string, extra: Arg, cb: Arg, now: int, k: nat)
    requires Consistent(s) && s.hasQuarantine
    requires s.isQuarantineRun == Some(true) && s.originalTest == Some(Native(k))
    ensures var r := QuarantineRegistration(s, startDate, name, extra, cb, now);
      && r.Some? && r.value.registrar == k
      && r.value.name == QuarantineName(startDate.text, name) && r.value.extra == extra
      && (s.expirationInDays == Some(PosInf) ==> r.value.cb == cb)
      && (s.expirationInDays == Some(NegInf) ==> r.value.cb == Fn(ExpiredFailure))
      && (s.expirationInDays.value.Finite? && startDate.parsed.None? ==> r.value.cb == Fn(InvalidStartDateFailure))
      && (s.expirationInDays.value.Finite? && startDate.parsed.Some? ==>
            r.value.cb == if now >= ExpiryTime(startDate.parsed.value, s.expirationInDays.value.days)
                          then Fn(ExpiredFailure) else cb)
  {
  }

  /** Outside a quarantine run a quarantined test reaches the current `test`
      as a todo, whatever its dates and the window. */
  lemma NormalRunRegistersTodo(s: Members, startDate: StartDate, name: string, extra: Arg, cb: Arg, now: int, k: nat)
    requires Consistent(s) && s.hasQuarantine
    requires s.isQuarantineRun == Some(false) && s.test == Native(k)
    ensures QuarantineRegistration(s, startDate, name, extra, cb, now)
            == Some(Registration(k, QuarantineName(startDate.text, name), Obj(FlaggedCopy(extra, "todo")), ShiftedCallback(extra, cb)))
  {
  }

  /** During a quarantine run an ordinary test is passed, under its own name,
      to the intercepted registrar with `skip` set. */
  lemma QuarantineRunSkipsOrdinaryTests(s: Members, days: Expiration, name: string, extra: Arg, cb: Arg, k: nat)
    requires s.test == Native(k)
    ensures var e := Extended(s, true, days);
      Dispatch(e.test, e.originalTest, name, extra, cb)
      == Some(Registration(k, name, Obj(FlaggedCopy(extra, "skip")), ShiftedCallback(extra, cb)))
  {
  }

  /** Extending twice for a quarantine run without restoring in between saves
      the skip wrapper as the original: ordinary tests can no longer be
      registered, and restoring does not bring the host registrar back. */
  lemma DoubleExtendLosesOriginal(s: Members, days1: Expiration, days2: Expiration, name: string, extra: Arg, cb: Arg)
    requires s.test.Native?
    ensures var e := Extended(Extended(s, true, days1), true, days2);
      && e.originalTest == Some(SkipWrapper)
      && Dispatch(e.test, e.originalTest, name, extra, cb).None?
      && Restored(e).test == SkipWrapper != s.test
  {
  }

  function Logged(call: Option<Registration>): (r: seq<Registration>) {
    if call.Some? then [call.value] else []
  }

  // ---------------------------------------------------------------------
  // The context object

  /** The options object a caller passes to `extendTapTest`; extension writes
      the resolved window back into it. */
  class ExtendOptions {
    var expirationInDays: Option<Expiration>

    constructor (expirationInDays: Option<Expiration>)
      ensures this.expirationInDays == expirationInDays
    {
      this.expirationInDays := expirationInDays;
    }
  }

  /** The second argument of `extendTapTest`: missing (or `null`), a boolean
      taken as the run mode, an options object, or a string or number, on
      which the default window cannot be stored. */
  datatype OptsArg =
    | Omitted
    | ModeFlag(mode: bool)
    | Given(options: ExtendOptions)
    | StringArg(text: string)
    | NumberArg(n: int)

  function OptionsObjects(opts: OptsArg): (r: set<object>) {
    if opts.Given? then {opts.options} else {}
  }

  /** The window the caller asked for, if any. */
  function RequestedExpiration(opts: OptsArg): (r: Option<Expiration>)
    reads OptionsObjects(opts)
  {
    if opts.Given? then opts.options.expirationInDays else None
  }

  /** The explicit run mode: a boolean second argument takes the place of the third. */
  function ModeArgument(opts: OptsArg, isQuarantineRun: Option<JsValue>): (r: Option<JsValue>) {
    if opts.ModeFlag? then Some(Bool(opts.mode)) else isQuarantineRun
  }

  /** Without the environment variable, a boolean second argument is the
      mode whatever the third says; otherwise the third is coerced. */
  lemma BooleanOptionsAreTheMode(opts: OptsArg, isQuarantineRun: Option<JsValue>)
    ensures opts.ModeFlag? ==> ResolveMode(None, ModeArgument(opts, isQuarantineRun)) == opts.mode
    ensures !opts.ModeFlag? ==> ResolveMode(None, ModeArgument(opts, isQuarantineRun)) == ToBoolean(isQuarantineRun)
  {
  }

  /** A tap Test instance, with the members the extension touches and the
      log of registrations that reached its host registrars. */
  class TapTest {
    var test: Registrar
    var testIsOwn: bool
    var originalTest: Option<Registrar>
    var isQuarantineRun: Option<bool>
    var expirationInDays: Option<Expiration>
    var hasQuarantine: bool
    var hasRestore: bool
    var log: seq<Registration>

    function State(): (r: Members)
      reads this
    {
      Members(test, testIsOwn, originalTest, isQuarantineRun, expirationInDays, hasQuarantine, hasRestore)
    }

    /** A fresh instance whose `test` is the host registrar `id`, an own
      property of the instance or not as `testIsOwn` says. */
    constructor (id: nat, testIsOwn: bool)
      ensures Pristine(State()) && test == Native(id) && this.testIsOwn == testIsOwn && log == []
    {
      test := Native(id);
      this.testIsOwn := testIsOwn;
      originalTest := None;
      isQuarantineRun := None;
      expirationInDays := None;
      hasQuarantine := false;
      hasRestore := false;
      log := [];
    }

    /** Calls `registrar` in this context and logs what reaches the host. */
    method Call(registrar: Registrar, name: string, extra: Arg, cb: Arg) returns (registered: bool)
      modifies this`log
      ensures registered == Dispatch(registrar, originalTest, name, extra, cb).Some?
      ensures log == old(log) + Logged(Dispatch(registrar, originalTest, name, extra, cb))
    {
      match registrar {
        case Native(id) =>
          log := log + [Registration(id, name, extra, cb)];
          registered := true;
        case SkipWrapper =>
          registered := QuarantineSkippedTest(name, extra, cb);
      }
    }

    /** The wrapper installed as `test` during a quarantine run. */
    method QuarantineSkippedTest(name: string, extra: Arg, cb: Arg) returns (registered: bool)
      modifies this`log
      ensures registered == Dispatch(SkipWrapper, originalTest, name, extra, cb).Some?
      ensures log == old(log) + Logged(Dispatch(SkipWrapper, originalTest, name, extra, cb))
    {
      var options, body := extra, cb;
      if extra.Fn? {
        body := extra;
        options := Obj(map[]);
      }
      var copy := CopyOptions(options)["skip" := Flag(true)];
      if originalTest.Some? && originalTest.value.Native? {
        log := log + [Registration(originalTest.value.id, name, Obj(copy), body)];
        registered := true;
      } else {
        // `_originalTest` is missing, or is this wrapper: the call throws
        registered := false;
      }
    }

    /** `t.test(name, extra, cb)`: a call of the current `test` member. */
    method Test(name: string, extra: Arg, cb: Arg) returns (registered: bool)
      modifies this`log
      ensures registered == Dispatch(test, originalTest, name, extra, cb).Some?
      ensures log == old(log) + Logged(Dispatch(test, originalTest, name, extra, cb))
    {
      registered := Call(test, name, extra, cb);
    }

    /** `t.quarantine(startDate, name, extra, cb)`, with `Date.now()` given as `now`. */
    method Quarantine(startDate: StartDate, name: string, extra: Arg, cb: Arg, now: int) returns (registered: bool)
      requires Consistent(State()) && hasQuarantine
      modifies this`log
      ensures registered == QuarantineRegistration(State(), startDate, name, extra, cb, now).Some?
      ensures log == old(log) + Logged(QuarantineRegistration(State(), startDate, name, extra, cb, now))
    {
      var quarantineName := QuarantineName(startDate.text, name);
      if isQuarantineRun == Some(true) {
        var body := cb;
        match expirationInDays.value {
          case PosInf =>
          case NegInf =>
            body := Fn(ExpiredFailure);
          case Finite(days) =>
            if startDate.parsed.None? {
              body := Fn(InvalidStartDateFailure);
            } else if now >= ExpiryTime(startDate.parsed.value, days) {
              body := Fn(ExpiredFailure);
            }
        }
        registered := Call(originalTest.value, quarantineName, extra, body);
        return;
      }
      var options, body := extra, cb;
      if extra.Fn? {
        body := extra;
        options := Obj(map[]);
      }
      var copy := CopyOptions(options)["todo" := Flag(true)];
      registered := Test(quarantineName, Obj(copy), body);
    }

    /** `t.restore()`, or a call of the bound `restore` after the member
        has been deleted. */
    method Restore()
      modifies this
      ensures State() == Restored(old(State())) && Consistent(State())
      ensures log == old(log)
    {
      if originalTest.Some? {
        test := originalTest.value;
        testIsOwn := true;
        originalTest := None;
      }
      isQuarantineRun := None;
      expirationInDays := None;
      hasQuarantine := false;
      hasRestore := false;
    }
  }

  /** `extendTapTest(tapTest, opts, isQuarantineRun)`, with the environment
      variable QUARANTINI given as `env`. A string or number as `opts` makes
      the write of the default window throw a TypeError (strict mode) before
      the context is touched; `thrown` reports it. */
  method ExtendTapTest(tapTest: TapTest, opts: OptsArg, isQuarantineRun: Option<JsValue>, env: Option<string>)
    returns (thrown: bool)
    modifies tapTest, OptionsObjects(opts)
    ensures thrown <==> opts.StringArg? || opts.NumberArg?
    ensures thrown ==> tapTest.State() == old(tapTest.State())
    ensures !thrown ==> tapTest.State() == Extended(old(tapTest.State()),
                                                    ResolveMode(GetEnvIsQuarantineRun(env), ModeArgument(opts, isQuarantineRun)),
                                                    ExpirationOrDefault(old(RequestedExpiration(opts))))
    ensures !thrown ==> Consistent(tapTest.State())
    ensures opts.Given? ==> opts.options.expirationInDays == Some(ExpirationOrDefault(old(opts.options.expirationInDays)))
    ensures tapTest.log == old(tapTest.log)
  {
    var explicit := isQuarantineRun;
    var options: ExtendOptions;
    match opts {
      case ModeFlag(mode) =>
        explicit := Some(Bool(mode));
        options := new ExtendOptions(None);
      case Omitted =>
        options := new ExtendOptions(None);
      case Given(o) =>
        options := o;
      case StringArg(_) =>
        return true;
      case NumberArg(_) =>
        return true;
    }
    options.expirationInDays := Some(ExpirationOrDefault(options.expirationInDays));

    var envSetting := GetEnvIsQuarantineRun(env);
    var isQuarantine := if envSetting.Some? then Some(Bool(envSetting.value)) else explicit;
    tapTest.isQuarantineRun := Some(ToBoolean(isQuarantine));

    tapTest.expirationInDays := options.expirationInDays;
    tapTest.hasQuarantine := true;

    if tapTest.isQuarantineRun == Some(true) {
      tapTest.originalTest := Some(tapTest.test);
      tapTest.test := SkipWrapper;
      tapTest.testIsOwn := true;
    }

    tapTest.hasRestore := true;
    thrown := false;
  }
}
