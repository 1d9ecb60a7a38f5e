/** Values that flow between the quarantine extension and the tap host. */
module QuarantineTypes {

  /** JavaScript's `undefined`/`null` versus a present value. */
  datatype Option<+T> = None | Some(value: T)

  /** A JavaScript value that is not `undefined` or `null`, as far as its
      truthiness goes: a boolean, a string, a whole number, or an object
      (functions included). */
  datatype JsValue = Bool(b: bool) | Str(s: string) | Num(n: int) | Object

  /** `expirationInDays`: a finite whole number of days, or one of the two infinities. */
  datatype Expiration = PosInf | NegInf | Finite(days: int)

  /** A test body handed to the host. The two failure bodies are the
      forced-failure functions of the extension; everything else is the
      caller's own function, identified by `id`. */
  datatype Body = CallerBody(id: nat) | ExpiredFailure | InvalidStartDateFailure

  /** One value inside a tap options object (`todo`, `skip`, `timeout`, ...). */
  datatype OptValue = Flag(b: bool) | Text(s: string) | Number(n: int)

  /** A tap options object, by its own keys. */
  type TestOptions = map<string, OptValue>

  /** An `extra` or `cb` argument of a registration call: absent
      (`undefined`/`null`), a function, or an options object. */
  datatype Arg = Undefined | Fn(body: Body) | Obj(options: TestOptions)

  /** The `startDate` given to `quarantine`: `text` is what the template
      literal turns it into, `parsed` the millisecond timestamp the date
      parser makes of it, `None` when it is not a valid date. */
  datatype StartDate = StartDate(text: string, parsed: Option<int>)

  /** The value of a context's `test` (or `_originalTest`) member: a host
      registrar, told apart by identity, or the skip wrapper that the
      extension installs during a quarantine run. */
  datatype Registrar = Native(id: nat) | SkipWrapper

  /** One call that reached a host registrar: which registrar, and the
      three arguments exactly as passed. */
  datatype Registration = Registration(registrar: nat, name: string, extra: Arg, cb: Arg)
}
